/** The room page of the browser client (frontend/src/component/EditorPage.js):
    the member roster it keeps from JOINED and DISCONNECTED, the SYNC_CODE
    reply it sends on every JOINED, the shared output pane, the side-panel
    toggle, the avatar label and the colour it derives from a username. */
module EditorPage {
  import opened Protocol

  // ---------------------------------------------------------------------
  // generateColor

  /** JavaScript's ToInt32: the integer reduced modulo 2^32 into the signed
      32-bit range. */
  function ToInt32(x: int): (r: int)
    ensures -0x8000_0000 <= r < 0x8000_0000
    ensures (r - x) % 0x1_0000_0000 == 0
  {
    var m := x % 0x1_0000_0000;
    if m >= 0x8000_0000 then m - 0x1_0000_0000 else m
  }

  /** `hash << 5`: both the operand and the result are taken as signed
      32-bit integers. */
  function ShiftLeft5(hash: int): int {
    ToInt32(ToInt32(hash) * 32)
  }

  /** One step of the hash loop: the shift truncates, the subtraction of
      `hash` and the addition of the character code do not. */
  function HashStep(hash: int, c: char): int {
    (c as int) + (ShiftLeft5(hash) - hash)
  }

  /** The hash of a whole string, one character at a time from the left. */
  function Hash(s: string): int {
    if s == [] then 0 else HashStep(Hash(s[..|s| - 1]), s[|s| - 1])
  }

  /** JavaScript's `% 360`: the remainder takes the sign of the dividend. */
  function JsRem360(a: int): (r: int)
    ensures -360 < r < 360
    ensures a >= 0 ==> 0 <= r
    ensures a <= 0 ==> r <= 0
    ensures (a - r) % 360 == 0
  {
    if a >= 0 then a % 360 else -((-a) % 360)
  }

  /** The hue `hash % 360` of a username. */
  function Hue(username: string): (h: int)
    ensures -360 < h < 360
  {
    JsRem360(Hash(username))
  }

  /** A colour as the client writes it. */
  datatype Color = Hsl(hue: int, saturation: nat, lightness: nat) | Hex(code: string)

  /** The colour generateColor gives a username. */
  function ColorOf(username: string): Color {
    Hsl(Hue(username), 70, 50)
  }

  /** generateColor: the hash loop over the username's characters. */
  method GenerateColor(username: string) returns (c: Color)
    ensures c == ColorOf(username)
    ensures c.Hsl? && -360 < c.hue < 360 && c.saturation == 70 && c.lightness == 50
  {
    var hash := 0;
    var i := 0;
    while i < |username|
      invariant 0 <= i <= |username|
      invariant hash == Hash(username[..i])
    {
      assert username[..i + 1][..i] == username[..i];
      hash := (username[i] as int) + (ShiftLeft5(hash) - hash);
      i := i + 1;
    }
    assert username[..i] == username;
    c := Hsl(JsRem360(hash), 70, 50);
  }

  /** The 32-bit truncation makes the hue negative for an ordinary name. */
  lemma HueCanBeNegative()
    ensures Hue("harish") == -67
  {
    var s := "harish";
    assert s[..0] == [] && Hash(s[..0]) == 0;
    assert s[..1][..0] == s[..0] && Hash(s[..1]) == 104;
    assert s[..2][..1] == s[..1] && Hash(s[..2]) == 3321;
    assert s[..3][..2] == s[..2] && Hash(s[..3]) == 103065;
    assert s[..4][..3] == s[..3] && Hash(s[..4]) == 3195120;
    assert s[..5][..4] == s[..4] && Hash(s[..5]) == 99048835;
    assert s[..6][..5] == s[..5] && s[..6] == s;
    assert Hash(s) == -1224453307;
  }

  // ---------------------------------------------------------------------
  // The roster

  /** One entry of the page's member list: the server's entry plus a colour. */
  datatype Member = Member(socketId: SocketId, username: string, memberId: Option<nat>, color: Color)

  /** The JOINED handler's `map`: each server entry extended with the colour
      of its username. An entry without a username makes generateColor read
      the length of `undefined`, which throws, so the whole handler stops
      there: that case is `None`. */
  function ColoredRoster(clients: seq<ClientInfo>): (ms: Option<seq<Member>>)
    ensures ms.Some? <==> forall i :: 0 <= i < |clients| ==> clients[i].username.Some?
    ensures ms.Some? ==> |ms.value| == |clients|
    ensures ms.Some? ==> forall i :: 0 <= i < |clients| ==>
              ms.value[i] == Member(clients[i].socketId, clients[i].username.value, clients[i].memberId,
                                    ColorOf(clients[i].username.value))
  {
    if clients == [] then Some([])
    else
      var rest := ColoredRoster(clients[1..]);
      match clients[0].username
      case None => None
      case Some(u) =>
        if rest.None? then None
        else Some([Member(clients[0].socketId, u, clients[0].memberId, ColorOf(u))] + rest.value)
  }

  /** The DISCONNECTED handler's `filter`. */
  function WithoutSocket(ms: seq<Member>, s: SocketId): (rest: seq<Member>)
    ensures |rest| <= |ms|
    ensures forall m :: m in rest <==> m in ms && m.socketId != s
  {
    if ms == [] then []
    else (if ms[0].socketId == s then [] else [ms[0]]) + WithoutSocket(ms[1..], s)
  }

  /** The filter keeps the survivors in their original order: the entries
      kept from `a + b` are those kept from `a`, then those kept from `b`. */
  lemma {:induction false} WithoutSocketAppend(a: seq<Member>, b: seq<Member>, s: SocketId)
    ensures WithoutSocket(a + b, s) == WithoutSocket(a, s) + WithoutSocket(b, s)
  {
    if a == [] {
      assert a + b == b;
    } else {
      assert (a + b)[0] == a[0] && (a + b)[1..] == a[1..] + b;
      WithoutSocketAppend(a[1..], b, s);
    }
  }

  /** Removing a socket that has no entry changes nothing. */
  lemma {:induction false} WithoutAbsentSocket(ms: seq<Member>, s: SocketId)
    requires forall i :: 0 <= i < |ms| ==> ms[i].socketId != s
    ensures WithoutSocket(ms, s) == ms
  {
    if ms != [] {
      WithoutAbsentSocket(ms[1..], s);
    }
  }

  // ---------------------------------------------------------------------
  // Panels, output and the avatar

  datatype Panel = ThemePanel | SearchPanel | SnippetsPanel

  /** togglePanel: the panel closes when it is the active one, and otherwise
      becomes the active one. */
  function Toggle(active: Option<Panel>, p: Panel): (next: Option<Panel>)
    ensures active == Some(p) ==> next == None
    ensures active != Some(p) ==> next == Some(p)
  {
    if active == Some(p) then None else Some(p)
  }

  /** Toggling the same panel twice goes back to where it started exactly
      when that panel was closed with nothing open, or was the open one. */
  lemma ToggleTwice(active: Option<Panel>, p: Panel)
    ensures Toggle(Toggle(active, p), p) == active <==> active == None || active == Some(p)
  {
  }

  /** What the compile endpoint answered: a response whose `output` may be
      missing or empty, or a failure whose body may carry an `error`. */
  datatype CompileResult = Compiled(output: Option<string>) | Failed(error: Option<string>)

  /** The text runCode shows and broadcasts for an answer. */
  function RunOutput(res: CompileResult): (out: string)
    ensures res.Compiled? && res.output.Some? && res.output.value != "" ==> out == res.output.value
    ensures res.Compiled? && (res.output.None? || res.output == Some("")) ==> out == "No output received"
    ensures res.Failed? && res.error.Some? && res.error.value != "" ==> out == res.error.value
    ensures res.Failed? && (res.error.None? || res.error == Some("")) ==> out == "An error occurred while compiling."
    ensures out != ""
  {
    match res
    case Compiled(o) => if o.Some? && o.value != "" then o.value else "No output received"
    case Failed(e) => if e.Some? && e.value != "" then e.value else "An error occurred while compiling."
  }

  /** The first roster entry with the given username, if any. */
  function FindByName(ms: seq<Member>, username: string): (found: Option<nat>)
    ensures found.Some? ==> found.value < |ms| && ms[found.value].username == username &&
                            forall j :: 0 <= j < found.value ==> ms[j].username != username
    ensures found.None? ==> forall j :: 0 <= j < |ms| ==> ms[j].username != username
  {
    if ms == [] then None
    else if ms[0].username == username then Some(0)
    else
      var f := FindByName(ms[1..], username);
      if f.Some? then Some(f.value + 1) else None
  }

  /** `toUpperCase` on the Latin letters a to z; every other character is
      left as it is. */
  function UpperAscii(c: char): char {
    if 'a' <= c <= 'z' then (c as int - 32) as char else c
  }

  /** What the header avatar shows. */
  datatype AvatarText = MemberNumber(n: nat) | Initial(text: string)

  /** The avatar label: the member id of the first roster entry with this
      client's username when it is present and not 0, and otherwise the
      first character of the username, upper-cased (nothing for an empty
      name). */
  function AvatarLabel(ms: seq<Member>, username: string): (shown: AvatarText)
    ensures shown.MemberNumber? <==>
              exists i :: 0 <= i < |ms| && ms[i].username == username &&
                (forall j :: 0 <= j < i ==> ms[j].username != username) &&
                ms[i].memberId.Some? && ms[i].memberId.value != 0
    ensures shown.MemberNumber? ==>
              exists i :: 0 <= i < |ms| && ms[i].username == username &&
                (forall j :: 0 <= j < i ==> ms[j].username != username) &&
                ms[i].memberId == Some(shown.n)
    ensures shown.Initial? ==> shown.text == if username == [] then [] else [UpperAscii(username[0])]
  {
    var f := FindByName(ms, username);
    if f.Some? && ms[f.value].memberId.Some? && ms[f.value].memberId.value != 0 then
      MemberNumber(ms[f.value].memberId.value)
    else
      Initial(if username == [] then [] else [UpperAscii(username[0])])
  }

  // ---------------------------------------------------------------------
  // The page

  class Page {
    const roomId: RoomId
    const username: string
    /** the member list shown in the sidebar */
    var clients: seq<Member>
    /** the shared output pane */
    var output: string
    var activePanel: Option<Panel>
    /** the latest full document the editor reported (`codeRef`), none before
        the first change */
    var code: Option<string>
    /** everything this page has emitted, in order */
    var sent: seq<Request>

    /** Mounting the page: empty state, then JOIN for this room and name. */
    constructor (roomId: RoomId, username: string)
      ensures this.roomId == roomId && this.username == username
      ensures clients == [] && output == "" && activePanel == None && code == None
      ensures sent == [JoinReq(roomId, username)]
    {
      this.roomId := roomId;
      this.username := username;
      clients, output, activePanel, code := [], "", None, None;
      sent := [JoinReq(roomId, username)];
    }

    /** JOINED {clients, username, socketId}: the roster is replaced by the
        server's list with colours, then SYNC_CODE with the current code goes
        to the announced joiner. When an entry has no username the handler
        throws before either step. */
    method OnJoined(roster: seq<ClientInfo>, joiner: SocketId)
      modifies this`clients, this`sent
      ensures ColoredRoster(roster).Some? ==>
                clients == ColoredRoster(roster).value && sent == old(sent) + [SyncCodeReq(joiner, code)]
      ensures ColoredRoster(roster).None? ==> clients == old(clients) && sent == old(sent)
    {
      var colored := ColoredRoster(roster);
      if colored.Some? {
        clients := colored.value;
        sent := sent + [SyncCodeReq(joiner, code)];
      }
    }

    /** DISCONNECTED {socketId}: that socket's entries leave the roster. */
    method OnDisconnected(s: SocketId)
      modifies this`clients
      ensures clients == WithoutSocket(old(clients), s)
    {
      clients := WithoutSocket(clients, s);
    }

    /** SYNC_OUTPUT {output}: the pane shows what another member ran. */
    method OnSyncOutput(text: string)
      modifies this`output
      ensures output == text
    {
      output := text;
    }

    /** The editor's `onCodeChange` callback. */
    method OnCodeChange(doc: string)
      modifies this`code
      ensures code == Some(doc)
    {
      code := Some(doc);
    }

    /** runCode, given what the compile endpoint answers: with no code (none
        reported yet, or an empty document) nothing changes; otherwise the
        answer's text is shown and broadcast to the room. */
    method RunCode(res: CompileResult)
      modifies this`output, this`sent
      ensures code.None? || code == Some("") ==> output == old(output) && sent == old(sent)
      ensures code.Some? && code != Some("") ==>
                output == RunOutput(res) && sent == old(sent) + [SyncOutputReq(roomId, RunOutput(res))]
    {
      if code.None? || code == Some("") {
        return;
      }
      output := RunOutput(res);
      sent := sent + [SyncOutputReq(roomId, output)];
    }

    /** clearOutput: the pane is emptied here and in the room. */
    method ClearOutput()
      modifies this`output, this`sent
      ensures output == "" && sent == old(sent) + [SyncOutputReq(roomId, "")]
    {
      output := "";
      sent := sent + [SyncOutputReq(roomId, "")];
    }

    method TogglePanel(p: Panel)
      modifies this`activePanel
      ensures activePanel == Toggle(old(activePanel), p)
    {
      activePanel := Toggle(activePanel, p);
    }
  }
}
