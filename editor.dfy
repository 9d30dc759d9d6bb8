/** The shared code editor of the browser client
    (frontend/src/component/Editor.js): the document, the local cursor, the
    echo suppression between local and remote changes, and the remote
    cursor bookmarks kept in a dictionary by socket id. */
module Editor {
  import opened Protocol
  import opened EditorPage

  /** A remote caret placed in the document: whose it is, where, in which
      colour, and the name on its label. */
  datatype Bookmark = Bookmark(owner: SocketId, at: Position, color: Color, name: string)

  /** The colour of a remote caret: the colour of the first roster entry for
      that socket, or the fallback yellow. */
  function CursorColor(clients: seq<Member>, s: SocketId): (c: Color)
    ensures (exists i :: 0 <= i < |clients| && clients[i].socketId == s) ==>
              exists i :: 0 <= i < |clients| && clients[i].socketId == s && c == clients[i].color &&
                forall j :: 0 <= j < i ==> clients[j].socketId != s
    ensures (forall i :: 0 <= i < |clients| ==> clients[i].socketId != s) ==> c == Hex("#ffcc00")
  {
    if clients == [] then Hex("#ffcc00")
    else if clients[0].socketId == s then clients[0].color
    else CursorColor(clients[1..], s)
  }

  /** What a change event emits: CODE_CHANGE with the whole document unless
      the change came from `setValue`, that is, from applying a remote
      update. */
  function ChangeEmits(origin: string, roomId: RoomId, doc: string): (out: seq<Request>)
    ensures origin == "setValue" <==> out == []
    ensures out != [] ==> out == [CodeChangeReq(roomId, doc)]
  {
    if origin == "setValue" then [] else [CodeChangeReq(roomId, doc)]
  }

  /** The remote carets in the document are exactly the markers in the
      dictionary, each filed under its own socket id. */
  ghost predicate MarkersTrack(markers: map<SocketId, Bookmark>, live: set<Bookmark>) {
    && live == markers.Values
    && forall s :: s in markers ==> markers[s].owner == s
  }

  /** Under that correspondence no socket has two carets in the document. */
  lemma OneCaretPerSocket(markers: map<SocketId, Bookmark>, live: set<Bookmark>, b1: Bookmark, b2: Bookmark)
    requires MarkersTrack(markers, live)
    requires b1 in live && b2 in live && b1.owner == b2.owner
    ensures b1 == b2
  {
    var s1 :| s1 in markers && markers[s1] == b1;
    var s2 :| s2 in markers && markers[s2] == b2;
  }

  /** Placing socket `s`'s caret: the previous one is cleared, the new one
      placed and filed under `s`. */
  lemma PlaceKeepsTrack(markers: map<SocketId, Bookmark>, live: set<Bookmark>, b: Bookmark)
    requires MarkersTrack(markers, live)
    ensures MarkersTrack(markers[b.owner := b],
                         (if b.owner in markers then live - {markers[b.owner]} else live) + {b})
  {
    var s := b.owner;
    var markers' := markers[s := b];
    var live' := (if s in markers then live - {markers[s]} else live) + {b};
    forall x | x in live' ensures x in markers'.Values {
      if x != b {
        var k :| k in markers && markers[k] == x;
        assert k != s;
        assert markers'[k] == x;
      }
      else {
        assert markers'[s] == b;
      }
    }
    forall x | x in markers'.Values ensures x in live' {
      var k :| k in markers' && markers'[k] == x;
      if k != s {
        assert markers[k] == x && x in live;
        assert x.owner == k;
      }
    }
  }

  /** Dropping socket `s`'s caret: cleared from the document and deleted
      from the dictionary. */
  lemma DropKeepsTrack(markers: map<SocketId, Bookmark>, live: set<Bookmark>, s: SocketId)
    requires MarkersTrack(markers, live) && s in markers
    ensures MarkersTrack(markers - {s}, live - {markers[s]})
  {
    var markers' := markers - {s};
    forall x | x in live - {markers[s]} ensures x in markers'.Values {
      var k :| k in markers && markers[k] == x;
      assert k != s;
      assert markers'[k] == x;
    }
    forall x | x in markers'.Values ensures x in live - {markers[s]} {
      var k :| k in markers' && markers'[k] == x;
      assert x.owner == k && k != s;
    }
  }

  class CodeEditor {
    const roomId: RoomId
    const username: string
    /** the document */
    var doc: string
    /** the local cursor */
    var cursor: Position
    /** the remote carets placed in the document */
    var live: set<Bookmark>
    /** `markersRef.current` */
    var markers: map<SocketId, Bookmark>
    /** every document the editor reported through `onCodeChange` */
    var reported: seq<string>
    /** everything this editor emitted, in order */
    var sent: seq<Request>

    ghost predicate Valid()
      reads this`markers, this`live
    {
      MarkersTrack(markers, live)
    }

    constructor (roomId: RoomId, username: string)
      ensures Valid()
      ensures this.roomId == roomId && this.username == username
      ensures doc == "" && cursor == Position(0, 0) && live == {} && markers == map[]
      ensures reported == [] && sent == []
    {
      this.roomId := roomId;
      this.username := username;
      doc, cursor, live, markers, reported, sent := "", Position(0, 0), {}, map[], [], [];
    }

    /** The `change` handler after the document became `newDoc`: the whole
        document goes to `onCodeChange`, and to the room unless the change
        came from `setValue`. */
    method Change(newDoc: string, origin: string)
      modifies this`doc, this`reported, this`sent
      ensures doc == newDoc
      ensures reported == old(reported) + [newDoc]
      ensures sent == old(sent) + ChangeEmits(origin, roomId, newDoc)
    {
      doc := newDoc;
      reported := reported + [newDoc];
      if origin != "setValue" {
        sent := sent + [CodeChangeReq(roomId, newDoc)];
      }
    }

    /** CODE_CHANGE {code} from the server: a null code is ignored; otherwise
        the document becomes `code` through `setValue` and the saved cursor is
        put back. Nothing is sent: the change handler sees origin `setValue`. */
    method ApplyRemote(code: Option<string>)
      modifies this`doc, this`reported, this`sent, this`cursor
      ensures code.None? ==> doc == old(doc) && reported == old(reported)
      ensures code.Some? ==> doc == code.value && reported == old(reported) + [code.value]
      ensures cursor == old(cursor)
      ensures sent == old(sent)
    {
      if code.Some? {
        var saved := cursor;
        Change(code.value, "setValue");
        cursor := saved;
      }
    }

    /** cursorActivity after the local cursor moved to `at` (what
        `getCursor` reports): the cursor is there, and its `{line, ch}` goes
        to the others in the room. */
    method CursorActivity(at: Position)
      modifies this`cursor, this`sent
      ensures cursor == at
      ensures sent == old(sent) + [CursorMoveReq(roomId, Some(at), username)]
    {
      cursor := at;
      sent := sent + [CursorMoveReq(roomId, Some(Position(cursor.line, cursor.ch)), username)];
    }

    /** CURSOR_MOVE {position, socketId, username} from the server: without a
        position nothing happens; otherwise the socket's previous caret is
        cleared and a new one placed, coloured after the roster. */
    method RemoteCursor(position: Option<Position>, s: SocketId, name: string, clients: seq<Member>)
      requires Valid()
      modifies this`markers, this`live
      ensures Valid()
      ensures position.None? ==> markers == old(markers) && live == old(live)
      ensures position.Some? ==>
                var b := Bookmark(s, position.value, CursorColor(clients, s), name);
                markers == old(markers)[s := b] &&
                live == (if s in old(markers) then old(live) - {old(markers)[s]} else old(live)) + {b}
    {
      if position.None? {
        return;
      }
      var b := Bookmark(s, position.value, CursorColor(clients, s), name);
      PlaceKeepsTrack(markers, live, b);
      if s in markers {
        live := live - {markers[s]};
      }
      live := live + {b};
      markers := markers[s := b];
    }

    /** DISCONNECTED {socketId}: that socket's caret, if any, is cleared and
        its dictionary entry deleted. */
    method UserLeft(s: SocketId)
      requires Valid()
      modifies this`markers, this`live
      ensures Valid()
      ensures s in old(markers) ==> markers == old(markers) - {s} && live == old(live) - {old(markers)[s]}
      ensures s !in old(markers) ==> markers == old(markers) && live == old(live)
    {
      if s in markers {
        DropKeepsTrack(markers, live, s);
        live := live - {markers[s]};
        markers := markers - {s};
      }
    }
  }
}
