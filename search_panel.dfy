/** The search-and-replace panel of the browser client
    (frontend/src/component/SearchPanel.js): a search term, a replacement,
    and the "current / count" match counter stepped by each action.
    CodeMirror's search cursor is not modelled: the matches it yields, and
    whether a step forward or back finds one, are the actions' inputs. The
    editor's selection and the texts written into it are mirrored fields. */
module SearchPanel {
  import opened Protocol

  /** Where a match lies in the document. */
  datatype Range = Range(from: Position, to: Position)

  /** A write the panel makes into the editor. */
  datatype Write =
    | ReplaceSelection(text: string)
    | ReplaceMatch(at: Range, text: string)

  // ---------------------------------------------------------------------
  // The counter

  /** The counter after a match was found going forward: one on, and from
      the last match back to the first. */
  function NextMatch(current: int, count: int): (next: int)
    ensures 1 <= current <= count ==> 1 <= next <= count
    ensures 1 <= current < count ==> next == current + 1
    ensures current >= count ==> next == 1
  {
    if current < count then current + 1 else 1
  }

  /** The counter after a match was found going backward: one back, and
      from the first match round to the last. */
  function PrevMatch(current: int, count: int): (prev: int)
    ensures 1 <= current <= count ==> 1 <= prev <= count
    ensures 1 < current ==> prev == current - 1
    ensures current <= 1 ==> prev == count
  {
    if current > 1 then current - 1 else count
  }

  /** Within range, a step back undoes a step forward and the other way
      round. */
  lemma NextPrevInverse(current: int, count: int)
    requires 1 <= current <= count
    ensures PrevMatch(NextMatch(current, count), count) == current
    ensures NextMatch(PrevMatch(current, count), count) == current
  {
  }

  /** `k` steps forward. */
  function StepsForward(current: int, count: int, k: nat): int {
    if k == 0 then current else NextMatch(StepsForward(current, count, k - 1), count)
  }

  /** Steps compose: `a` steps and then `b` steps are `a + b` steps. */
  lemma {:induction false} StepsForwardAdd(current: int, count: int, a: nat, b: nat)
    ensures StepsForward(current, count, a + b) == StepsForward(StepsForward(current, count, a), count, b)
  {
    if b > 0 {
      StepsForwardAdd(current, count, a, b - 1);
    }
  }

  /** Below the last match each step moves one match on. */
  lemma {:induction false} StepsForwardUp(current: int, count: int, k: nat)
    requires 1 <= current && current + k <= count
    ensures StepsForward(current, count, k) == current + k
  {
    if k > 0 {
      StepsForwardUp(current, count, k - 1);
    }
  }

  /** Stepping forward climbs one match per step up to the last, wraps
      round to the first, and after `count` steps is back at the match it
      started from. */
  lemma FullCycle(current: int, count: int)
    requires 1 <= current <= count
    ensures forall k: nat :: k <= count - current ==> StepsForward(current, count, k) == current + k
    ensures StepsForward(current, count, count - current + 1) == 1
    ensures StepsForward(current, count, count) == current
  {
    forall k: nat | k <= count - current
      ensures StepsForward(current, count, k) == current + k
    {
      StepsForwardUp(current, count, k);
    }
    StepsForwardUp(current, count, count - current);
    var top := count - current + 1;
    assert StepsForward(current, count, top) == NextMatch(count, count);
    StepsForwardUp(1, count, current - 1);
    StepsForwardAdd(current, count, top, current - 1);
  }

  // ---------------------------------------------------------------------
  // The panel

  class Panel {
    var searchTerm: string
    var replaceTerm: string
    var caseSensitive: bool
    var matchCount: int
    var currentMatch: int
    /** whether `editorRef.current` is set */
    var hasEditor: bool
    /** the last selection the panel made in the editor */
    var selected: Option<Range>
    /** every write the panel made into the editor, in order */
    var writes: seq<Write>

    /** The counter reads "0" while there are no matches and
        "current/count" for a match within the count otherwise. */
    ghost predicate Valid()
      reads this`matchCount, this`currentMatch
    {
      matchCount >= 0 && (matchCount == 0 || 1 <= currentMatch <= matchCount)
    }

    /** No action does anything without an editor or a search term. */
    predicate Idle()
      reads this`hasEditor, this`searchTerm
    {
      !hasEditor || searchTerm == ""
    }

    constructor (hasEditor: bool)
      ensures Valid()
      ensures searchTerm == "" && replaceTerm == "" && !caseSensitive
      ensures matchCount == 0 && currentMatch == 0
      ensures this.hasEditor == hasEditor && selected == None && writes == []
    {
      searchTerm, replaceTerm, caseSensitive := "", "", false;
      matchCount, currentMatch := 0, 0;
      this.hasEditor, selected, writes := hasEditor, None, [];
    }

    method SetSearchTerm(term: string)
      modifies this`searchTerm
      ensures searchTerm == term
    {
      searchTerm := term;
    }

    method SetReplaceTerm(term: string)
      modifies this`replaceTerm
      ensures replaceTerm == term
    {
      replaceTerm := term;
    }

    method SetCaseSensitive(on: bool)
      modifies this`caseSensitive
      ensures caseSensitive == on
    {
      caseSensitive := on;
    }

    /** `performSearch` over the matches the search cursor yields: the count
        becomes their number; with at least one, the first is selected and
        the counter is on it; with none, the counter keeps its value. */
    method PerformSearch(hits: seq<Range>)
      requires Valid()
      modifies this`matchCount, this`currentMatch, this`selected
      ensures Valid()
      ensures Idle() ==> matchCount == old(matchCount) && currentMatch == old(currentMatch) && selected == old(selected)
      ensures !Idle() ==> matchCount == |hits|
      ensures !Idle() && hits != [] ==> currentMatch == 1 && selected == Some(hits[0])
      ensures !Idle() && hits == [] ==> currentMatch == old(currentMatch) && selected == old(selected)
    {
      if Idle() {
        return;
      }
      var count := 0;
      var i := 0;
      while i < |hits|
        invariant 0 <= i <= |hits| && count == i
      {
        count := count + 1;
        i := i + 1;
      }
      matchCount := count;
      if count > 0 {
        currentMatch := 1;
        selected := Some(hits[0]);
      }
    }

    /** `findNext`, where `found` is the match after the cursor, if any. */
    method FindNext(found: Option<Range>)
      requires Valid()
      modifies this`currentMatch, this`selected
      ensures Valid()
      ensures Idle() || found.None? ==> currentMatch == old(currentMatch) && selected == old(selected)
      ensures !Idle() && found.Some? ==> currentMatch == NextMatch(old(currentMatch), matchCount) && selected == found
    {
      if Idle() {
        return;
      }
      if found.Some? {
        selected := found;
        currentMatch := NextMatch(currentMatch, matchCount);
      }
    }

    /** `findPrevious`, where `found` is the match before the cursor, if any. */
    method FindPrevious(found: Option<Range>)
      requires Valid()
      modifies this`currentMatch, this`selected
      ensures Valid()
      ensures Idle() || found.None? ==> currentMatch == old(currentMatch) && selected == old(selected)
      ensures !Idle() && found.Some? ==> currentMatch == PrevMatch(old(currentMatch), matchCount) && selected == found
    {
      if Idle() {
        return;
      }
      if found.Some? {
        selected := found;
        currentMatch := PrevMatch(currentMatch, matchCount);
      }
    }

    /** `replaceOne`: only when the editor's selection is exactly the search
        term is it replaced, and then the panel moves to the next match. */
    method ReplaceOne(selection: string, found: Option<Range>)
      requires Valid()
      modifies this`writes, this`currentMatch, this`selected
      ensures Valid()
      ensures Idle() || selection != searchTerm ==>
                writes == old(writes) && currentMatch == old(currentMatch) && selected == old(selected)
      ensures !Idle() && selection == searchTerm ==> writes == old(writes) + [ReplaceSelection(replaceTerm)]
      ensures !Idle() && selection == searchTerm && found.Some? ==>
                currentMatch == NextMatch(old(currentMatch), matchCount) && selected == found
      ensures !Idle() && selection == searchTerm && found.None? ==>
                currentMatch == old(currentMatch) && selected == old(selected)
    {
      if Idle() {
        return;
      }
      if selection == searchTerm {
        writes := writes + [ReplaceSelection(replaceTerm)];
        FindNext(found);
      }
    }

    /** `replaceAll` over the matches the search cursor yields: each is
        replaced, in order, and the counter is reset to "0". */
    method ReplaceAll(hits: seq<Range>)
      requires Valid()
      modifies this`writes, this`matchCount, this`currentMatch
      ensures Valid()
      ensures Idle() ==> writes == old(writes) && matchCount == old(matchCount) && currentMatch == old(currentMatch)
      ensures !Idle() ==> matchCount == 0 && currentMatch == 0
      ensures !Idle() ==> |writes| == |old(writes)| + |hits| && writes[..|old(writes)|] == old(writes)
      ensures !Idle() ==> forall i :: 0 <= i < |hits| ==> writes[|old(writes)| + i] == ReplaceMatch(hits[i], replaceTerm)
    {
      if Idle() {
        return;
      }
      ghost var before := writes;
      var i := 0;
      while i < |hits|
        invariant 0 <= i <= |hits|
        invariant |writes| == |before| + i && writes[..|before|] == before
        invariant forall j :: 0 <= j < i ==> writes[|before| + j] == ReplaceMatch(hits[j], replaceTerm)
      {
        writes := writes + [ReplaceMatch(hits[i], replaceTerm)];
        i := i + 1;
      }
      matchCount, currentMatch := 0, 0;
    }
  }
}
