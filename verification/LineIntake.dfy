/** Reading the lines appended to a file while it grows: the manifest and the control channel. */
module LineIntake {
  import opened Wrappers
  import opened PyText

  // ----- the part of a text that is complete -----

  /** Up to and with the last newline. */
  function Complete(text: string): (c: string)
    ensures c <= text
  {
    if text == "" || text[|text| - 1] == '\n' then text else Complete(text[..|text| - 1])
  }

  function Tail(text: string): string
  {
    text[|Complete(text)|..]
  }

  /** Empty, or ending in a newline. */
  predicate Terminated(s: string)
  {
    s == "" || s[|s| - 1] == '\n'
  }

  lemma {:induction false} CompleteIsTerminated(text: string)
    ensures Terminated(Complete(text)) && (Terminated(text) ==> Complete(text) == text)
  {
    if text != "" && text[|text| - 1] != '\n' { CompleteIsTerminated(text[..|text| - 1]); }
  }

  lemma {:induction false} CompleteAppend(a: string, x: string)
    requires Terminated(a)
    ensures Complete(a + x) == a + Complete(x)
    decreases |x|
  {
    if x == "" {
      assert a + x == a;
    } else if x[|x| - 1] != '\n' {
      assert (a + x)[..|a + x| - 1] == a + x[..|x| - 1];
      CompleteAppend(a, x[..|x| - 1]);
    }
  }

  lemma {:induction false} FirstLineAppend(a: string, x: string)
    requires a != "" && Terminated(a)
    ensures FirstLine(a + x) == FirstLine(a)
  {
    if !(a[0] == '\r' && |a| > 1 && a[1] == '\n') && !IsBreak(a[0]) {
      assert |a| > 1 && (a + x)[1..] == a[1..] + x;
      FirstLineAppend(a[1..], x);
    }
  }

  /** A newline ends a line whatever follows it. */
  lemma {:induction false} SplitAppend(a: string, x: string)
    requires Terminated(a)
    ensures SplitLines(a + x) == SplitLines(a) + SplitLines(x)
    decreases |a|
  {
    if a == "" {
      assert a + x == x;
    } else {
      var n := FirstLine(a);
      FirstLineAppend(a, x);
      SplitOff(a, x, n);
      SplitAppend(a[n..], x);
    }
  }

  lemma SplitOff(a: string, x: string, n: nat)
    requires n <= |a| && Terminated(a)
    ensures (a + x)[..n] == a[..n] && (a + x)[n..] == a[n..] + x && Terminated(a[n..])
  {
    if n < |a| { assert a[n..][|a| - n - 1] == a[|a| - 1]; }
  }

  function Lines(text: string): seq<string>
  {
    SplitLines(Complete(text))
  }

  /** What has been read of a file stays as it is when the file grows. */
  lemma GrowingKeepsLines(text: string, more: string)
    ensures Lines(text) <= Lines(text + more)
  {
    CompleteIsTerminated(text);
    var c := Complete(text);
    assert text + more == c + (Tail(text) + more);
    CompleteAppend(c, Tail(text) + more);
    SplitAppend(c, Complete(Tail(text) + more));
  }

  // ----- one poll -----

  datatype Read = Missing | Failed | Text(text: string)

  /** What a line is: nothing, something that cannot be used, an instruction, or a task that `admit`
      turned into an item. */
  datatype Verdict<I, A> = Skip | Action(action: A) | Item(item: I)

  /** `commit` says that the poll offers to retire lines. */
  datatype Poll<I, A> = Poll(items: seq<I>, actions: seq<A>, settled: bool, commit: bool)

  function Max(a: nat, b: nat): nat
  {
    if a < b then b else a
  }

  function ItemIn<I, A>(verdict: Verdict<I, A>): seq<I>
  {
    match verdict case Item(i) => [i] case _ => []
  }

  function ActionIn<I, A>(verdict: Verdict<I, A>): seq<A>
  {
    match verdict case Action(a) => [a] case _ => []
  }

  /** The items among the lines `from` and on. */
  function ItemsOf<I, A>(lines: seq<string>, judge: (nat, string) -> Verdict<I, A>, from: nat): seq<I>
    decreases |lines| - from
  {
    if from >= |lines| then []
    else ItemIn(judge(from, lines[from])) + ItemsOf(lines, judge, from + 1)
  }

  function ActionsOf<I, A>(lines: seq<string>, judge: (nat, string) -> Verdict<I, A>, from: nat): seq<A>
    decreases |lines| - from
  {
    if from >= |lines| then []
    else ActionIn(judge(from, lines[from])) + ActionsOf(lines, judge, from + 1)
  }

  /** The numbers of the lines that were judged to be items, from `from` on and in order, and the items. */
  ghost predicate PicksItems<I, A>(lines: seq<string>, judge: (nat, string) -> Verdict<I, A>, from: nat, at: seq<nat>, items: seq<I>)
  {
    && |at| == |items| && Ascending(at)
    && (forall j :: 0 <= j < |at| ==> from <= at[j] < |lines| && judge(at[j], lines[at[j]]) == Item(items[j]))
    && (forall no: nat :: from <= no < |lines| && judge(no, lines[no]).Item? ==> no in at)
  }

  ghost predicate PicksActions<I, A>(lines: seq<string>, judge: (nat, string) -> Verdict<I, A>, from: nat, at: seq<nat>, actions: seq<A>)
  {
    && |at| == |actions| && Ascending(at)
    && (forall j :: 0 <= j < |at| ==> from <= at[j] < |lines| && judge(at[j], lines[at[j]]) == Action(actions[j]))
    && (forall no: nat :: from <= no < |lines| && judge(no, lines[no]).Action? ==> no in at)
  }

  predicate Ascending(at: seq<nat>)
  {
    forall i, j :: 0 <= i < j < |at| ==> at[i] < at[j]
  }

  /** What is picked is all items among the lines, each once and in their order. */
  ghost predicate ArePicked<I, A>(lines: seq<string>, judge: (nat, string) -> Verdict<I, A>, from: nat, items: seq<I>, actions: seq<A>)
  {
    && (exists at :: PicksItems(lines, judge, from, at, items))
    && (exists at :: PicksActions(lines, judge, from, at, actions))
  }

  lemma PickItem<I, A>(lines: seq<string>, judge: (nat, string) -> Verdict<I, A>, from: nat, at: seq<nat>, items: seq<I>, item: I)
    requires from < |lines| && judge(from, lines[from]) == Item(item) && PicksItems(lines, judge, from + 1, at, items)
    ensures PicksItems(lines, judge, from, [from] + at, [item] + items)
  {
    forall no: nat | from <= no < |lines| && judge(no, lines[no]).Item? ensures no in [from] + at {
      if no == from { assert ([from] + at)[0] == from; } else { assert no in at; }
    }
  }

  lemma PassItem<I, A>(lines: seq<string>, judge: (nat, string) -> Verdict<I, A>, from: nat, at: seq<nat>, items: seq<I>)
    requires from < |lines| && !judge(from, lines[from]).Item? && PicksItems(lines, judge, from + 1, at, items)
    ensures PicksItems(lines, judge, from, at, items) && ItemsOf(lines, judge, from) == ItemsOf(lines, judge, from + 1)
  {
    forall no: nat | from <= no < |lines| && judge(no, lines[no]).Item? ensures no in at { assert no != from; }
    assert ItemsOf(lines, judge, from) == [] + ItemsOf(lines, judge, from + 1);
  }

  lemma {:induction false} ItemsPicked<I, A>(lines: seq<string>, judge: (nat, string) -> Verdict<I, A>, from: nat) returns (at: seq<nat>)
    ensures PicksItems(lines, judge, from, at, ItemsOf(lines, judge, from))
    decreases |lines| - from
  {
    if from >= |lines| {
      at := [];
    } else {
      at := ItemsPicked(lines, judge, from + 1);
      match judge(from, lines[from])
      case Item(item) =>
        PickItem(lines, judge, from, at, ItemsOf(lines, judge, from + 1), item);
        at := [from] + at;
      case _ => PassItem(lines, judge, from, at, ItemsOf(lines, judge, from + 1));
    }
  }

  lemma PickAction<I, A>(lines: seq<string>, judge: (nat, string) -> Verdict<I, A>, from: nat, at: seq<nat>, actions: seq<A>, action: A)
    requires from < |lines| && judge(from, lines[from]) == Action(action) && PicksActions(lines, judge, from + 1, at, actions)
    ensures PicksActions(lines, judge, from, [from] + at, [action] + actions)
  {
    forall no: nat | from <= no < |lines| && judge(no, lines[no]).Action? ensures no in [from] + at {
      if no == from { assert ([from] + at)[0] == from; } else { assert no in at; }
    }
  }

  lemma PassAction<I, A>(lines: seq<string>, judge: (nat, string) -> Verdict<I, A>, from: nat, at: seq<nat>, actions: seq<A>)
    requires from < |lines| && !judge(from, lines[from]).Action? && PicksActions(lines, judge, from + 1, at, actions)
    ensures PicksActions(lines, judge, from, at, actions) && ActionsOf(lines, judge, from) == ActionsOf(lines, judge, from + 1)
  {
    forall no: nat | from <= no < |lines| && judge(no, lines[no]).Action? ensures no in at { assert no != from; }
    assert ActionsOf(lines, judge, from) == [] + ActionsOf(lines, judge, from + 1);
  }

  lemma {:induction false} ActionsPicked<I, A>(lines: seq<string>, judge: (nat, string) -> Verdict<I, A>, from: nat) returns (at: seq<nat>)
    ensures PicksActions(lines, judge, from, at, ActionsOf(lines, judge, from))
    decreases |lines| - from
  {
    if from >= |lines| {
      at := [];
    } else {
      at := ActionsPicked(lines, judge, from + 1);
      match judge(from, lines[from])
      case Action(action) =>
        PickAction(lines, judge, from, at, ActionsOf(lines, judge, from + 1), action);
        at := [from] + at;
      case _ => PassAction(lines, judge, from, at, ActionsOf(lines, judge, from + 1));
    }
  }

  lemma Picked<I, A>(lines: seq<string>, judge: (nat, string) -> Verdict<I, A>, from: nat)
    ensures ArePicked(lines, judge, from, ItemsOf(lines, judge, from), ActionsOf(lines, judge, from))
  {
    var at := ItemsPicked(lines, judge, from);
    at := ActionsPicked(lines, judge, from);
  }

  /** The loop over the new lines. */
  method ReadNew<I, A>(lines: seq<string>, judge: (nat, string) -> Verdict<I, A>, from: nat)
    returns (items: seq<I>, actions: seq<A>)
    ensures items == ItemsOf(lines, judge, from) && actions == ActionsOf(lines, judge, from)
  {
    items, actions := [], [];
    var no := from;
    while no < |lines|
      invariant from <= no <= Max(from, |lines|)
      invariant items + ItemsOf(lines, judge, no) == ItemsOf(lines, judge, from)
      invariant actions + ActionsOf(lines, judge, no) == ActionsOf(lines, judge, from)
      decreases Max(from, |lines|) - no
    {
      Regrouped(items, ItemIn<I, A>(judge(no, lines[no])), ItemsOf(lines, judge, no + 1));
      Regrouped(actions, ActionIn<I, A>(judge(no, lines[no])), ActionsOf(lines, judge, no + 1));
      assert items + [] == items && actions + [] == actions;
      match judge(no, lines[no]) {
        case Skip =>
        case Action(a) => actions := actions + [a];
        case Item(i) => items := items + [i];
      }
      no := no + 1;
    }
  }

  /** A tail that is not blank, on a line that has not been read. */
  predicate UnseenTail(text: string, consumed: nat)
  {
    Strip(Tail(text)) != "" && |SplitLines(text)| > consumed
  }

  /** The intake over a growing file. The cursor on disk, if there is to be one, is a field. */
  class Intake {
    var consumed: nat
    var recorded: nat
    const durable: bool
    var onDisk: Option<nat>

    /** The cursor of an earlier run; what cannot be read counts as none. */
    constructor (durable: bool, cursor: Option<int>)
      ensures this.durable == durable && consumed == recorded
      ensures consumed == match cursor case Some(n) => (if durable && n > 0 then n else 0) case None => 0
    {
      this.durable := durable;
      var start: nat := match cursor case Some(n) => (if durable && n > 0 then n else 0) case None => 0;
      consumed, recorded := start, start;
      onDisk := if durable && cursor.Some? then Some(start) else None;
    }

    method PollFile<I, A>(read: Read, judge: (nat, string) -> Verdict<I, A>) returns (poll: Poll<I, A>)
      modifies this`consumed
      ensures read.Missing? ==> poll == Poll([], [], true, false) && consumed == old(consumed)
      ensures read.Failed? ==> poll == Poll([], [], false, false) && consumed == old(consumed)
      ensures read.Text? ==>
        && poll.items == ItemsOf(Lines(read.text), judge, old(consumed))
        && poll.actions == ActionsOf(Lines(read.text), judge, old(consumed))
        && ArePicked(Lines(read.text), judge, old(consumed), poll.items, poll.actions)
        && (poll.settled <==> !UnseenTail(read.text, old(consumed)))
        && consumed == Max(old(consumed), |Lines(read.text)|)
        && (poll.commit <==> consumed != recorded)
    {
      match read
      case Missing => return Poll([], [], true, false);
      case Failed => return Poll([], [], false, false);
      case Text(text) =>
        var lines := SplitLines(Complete(text));
        var pendingTail := Strip(Tail(text)) != "" && |SplitLines(text)| > consumed;
        var items, actions := ReadNew(lines, judge, consumed);
        Picked(lines, judge, consumed);
        consumed := Max(consumed, |lines|);
        poll := Poll(items, actions, !pendingTail, consumed != recorded);
    }

    /** The polls of a run, one reading of the file each. */
    method PollAll<I, A>(readings: seq<Read>, judge: (nat, string) -> Verdict<I, A>) returns (items: seq<I>, actions: seq<A>)
      modifies this`consumed
      ensures items == ItemsPolled(readings, judge, old(consumed)) && actions == ActionsPolled(readings, judge, old(consumed))
      ensures consumed == CursorAfter(readings, old(consumed))
      ensures Growing(readings) ==>
        && items == ItemsOf(Lines(LastSeen(readings)), judge, old(consumed))
        && actions == ActionsOf(Lines(LastSeen(readings)), judge, old(consumed))
        && ArePicked(Lines(LastSeen(readings)), judge, old(consumed), items, actions)
        && consumed == Max(old(consumed), |Lines(LastSeen(readings))|)
    {
      items, actions := [], [];
      for k := 0 to |readings|
        invariant items == ItemsPolled(readings[..k], judge, old(consumed)) && actions == ActionsPolled(readings[..k], judge, old(consumed))
        invariant consumed == CursorAfter(readings[..k], old(consumed))
      {
        var poll := PollFile(readings[k], judge);
        assert readings[..k + 1][..k] == readings[..k];
        items, actions := items + poll.items, actions + poll.actions;
      }
      assert readings[..|readings|] == readings;
      if Growing(readings) {
        StreamingIsBatch(readings, judge, old(consumed));
        Picked(Lines(LastSeen(readings)), judge, old(consumed));
      }
    }

    /** Records the cursor; `written` is false when the file system refuses. */
    method Commit(written: bool)
      modifies this`recorded, this`onDisk
      ensures if !durable || old(recorded) == consumed || !written then recorded == old(recorded) && onDisk == old(onDisk)
              else recorded == consumed && onDisk == Some(consumed)
    {
      if durable && consumed != recorded && written {
        onDisk := Some(consumed);
        recorded := consumed;
      }
    }
  }

  // ----- all polls of a run -----

  /** The cursor after these readings, the one before being `from`. */
  function CursorAfter(readings: seq<Read>, from: nat): nat
  {
    if readings == [] then from
    else
      var before := CursorAfter(readings[..|readings| - 1], from);
      match readings[|readings| - 1] case Text(t) => Max(before, |Lines(t)|) case _ => before
  }

  /** The items that polls of these readings hand over, one after the other. */
  function ItemsPolled<I, A>(readings: seq<Read>, judge: (nat, string) -> Verdict<I, A>, from: nat): seq<I>
  {
    if readings == [] then []
    else
      var before := readings[..|readings| - 1];
      ItemsPolled(before, judge, from)
      + match readings[|readings| - 1] case Text(t) => ItemsOf(Lines(t), judge, CursorAfter(before, from)) case _ => []
  }

  function ActionsPolled<I, A>(readings: seq<Read>, judge: (nat, string) -> Verdict<I, A>, from: nat): seq<A>
  {
    if readings == [] then []
    else
      var before := readings[..|readings| - 1];
      ActionsPolled(before, judge, from)
      + match readings[|readings| - 1] case Text(t) => ActionsOf(Lines(t), judge, CursorAfter(before, from)) case _ => []
  }

  /** The text of the last reading that went through. */
  function LastSeen(readings: seq<Read>): string
  {
    if readings == [] then "" else match readings[|readings| - 1] case Text(t) => t case _ => LastSeen(readings[..|readings| - 1])
  }

  /** Each reading that goes through finds what the one before it saw, and perhaps more behind it. */
  predicate Growing(readings: seq<Read>)
  {
    readings == [] ||
    (Growing(readings[..|readings| - 1])
     && match readings[|readings| - 1] case Text(t) => LastSeen(readings[..|readings| - 1]) <= t case _ => true)
  }

  lemma GrowingLines(t: string, u: string)
    requires t <= u
    ensures Lines(t) <= Lines(u)
  {
    assert u == t + u[|t|..];
    GrowingKeepsLines(t, u[|t|..]);
  }

  /** However a file grows and whenever it is read, also when readings fail in between: the polls together
      hand over the items and the actions of one reading of the whole file from the first cursor. */
  lemma {:induction false} StreamingIsBatch<I, A>(readings: seq<Read>, judge: (nat, string) -> Verdict<I, A>, from: nat)
    requires Growing(readings)
    ensures var lines := Lines(LastSeen(readings));
      && ItemsPolled(readings, judge, from) == ItemsOf(lines, judge, from)
      && ActionsPolled(readings, judge, from) == ActionsOf(lines, judge, from)
      && ArePicked(lines, judge, from, ItemsPolled(readings, judge, from), ActionsPolled(readings, judge, from))
      && CursorAfter(readings, from) == Max(from, |lines|)
    decreases |readings|
  {
    Picked(Lines(LastSeen(readings)), judge, from);
    if readings != [] {
      var before := readings[..|readings| - 1];
      StreamingIsBatch(before, judge, from);
      if readings[|readings| - 1].Text? {
        var t := readings[|readings| - 1].text;
        GrowingLines(LastSeen(before), t);
        ReadInParts(Lines(LastSeen(before)), Lines(t), judge, from);
      }
    }
  }

  /** Reading some lines and then the rest is reading them all. */
  lemma {:induction false} ReadInParts<I, A>(first: seq<string>, lines: seq<string>, judge: (nat, string) -> Verdict<I, A>, from: nat)
    requires first <= lines
    ensures ItemsOf(lines, judge, from) == ItemsOf(first, judge, from) + ItemsOf(lines, judge, Max(from, |first|))
    ensures ActionsOf(lines, judge, from) == ActionsOf(first, judge, from) + ActionsOf(lines, judge, Max(from, |first|))
    decreases |first| - from
  {
    if from < |first| {
      ReadInParts(first, lines, judge, from + 1);
      assert first[from] == lines[from];
      Regrouped(ItemIn<I, A>(judge(from, lines[from])), ItemsOf(first, judge, from + 1), ItemsOf(lines, judge, |first|));
      Regrouped(ActionIn<I, A>(judge(from, lines[from])), ActionsOf(first, judge, from + 1), ActionsOf(lines, judge, |first|));
    }
  }

  lemma Regrouped<T>(a: seq<T>, b: seq<T>, c: seq<T>)
    ensures a + (b + c) == (a + b) + c
  {
  }

  // ----- where the polls go on -----

  lemma {:induction false} CompleteGrows(text: string, more: string)
    ensures Complete(text + more) == if Complete(more) == "" then Complete(text) else text + Complete(more)
    decreases |more|
  {
    if more == "" {
      assert text + more == text;
    } else if more[|more| - 1] != '\n' {
      assert (text + more)[..|text + more| - 1] == text + more[..|more| - 1];
      CompleteGrows(text, more[..|more| - 1]);
    }
  }

  lemma {:induction false} FirstLineGrows(text: string, more: string)
    requires text != ""
    ensures FirstLine(text) <= FirstLine(text + more) && (FirstLine(text) < |text| ==> FirstLine(text + more) == FirstLine(text))
  {
    if !(text[0] == '\r' && |text| > 1 && text[1] == '\n') && !IsBreak(text[0]) && |text| > 1 {
      assert (text + more)[1..] == text[1..] + more;
      FirstLineGrows(text[1..], more);
    }
  }

  /** The lines are those seen, the last one perhaps longer, and others behind them. */
  predicate Continues(seen: seq<string>, lines: seq<string>)
  {
    |seen| <= |lines| && forall j :: 0 <= j < |seen| ==> seen[j] <= lines[j] && (j < |seen| - 1 ==> seen[j] == lines[j])
  }

  lemma {:induction false} SplitGrows(text: string, more: string)
    ensures Continues(SplitLines(text), SplitLines(text + more))
    decreases |text|
  {
    if text != "" {
      var n := FirstLine(text);
      FirstLineGrows(text, more);
      if n < |text| {
        assert (text + more)[..n] == text[..n] && (text + more)[n..] == text[n..] + more;
        SplitGrows(text[n..], more);
      } else {
        assert text[..n] == text && text[n..] == "";
        assert SplitLines(text)[0] == text && |SplitLines(text)| == 1;
        assert text <= (text + more)[..FirstLine(text + more)];
      }
    }
  }

  /** A strict reading of the whole text counts its unterminated last line too, and the polls start with
      that number. As soon as what is appended has a newline, the lines before the cursor are those the
      reading saw, the last one perhaps longer; so no line that was appended is skipped. Until then there
      are no more terminated lines than there were. */
  lemma SnapshotGoesOn(text: string, more: string)
    ensures |Lines(text)| <= |SplitLines(text)|
    ensures if Complete(more) == "" then Lines(text + more) == Lines(text)
            else Continues(SplitLines(text), Lines(text + more))
  {
    CompleteIsTerminated(text);
    assert text == Complete(text) + Tail(text);
    SplitAppend(Complete(text), Tail(text));
    CompleteGrows(text, more);
    SplitGrows(text, Complete(more));
  }

  /** A text is its complete lines, of which polls hand over items, and one tail; and the tail is unseen
      exactly when the cursor has not passed the complete lines and it. */
  lemma TailIsNeverHanded(text: string, consumed: nat)
    ensures UnseenTail(text, consumed) <==> Strip(Tail(text)) != "" && consumed < |Lines(text)| + |SplitLines(Tail(text))|
    ensures SplitLines(text) == Lines(text) + SplitLines(Tail(text))
    ensures '\n' !in Tail(text)
  {
    CompleteIsTerminated(text);
    assert text == Complete(text) + Tail(text);
    SplitAppend(Complete(text), Tail(text));
    TailHasNoNewline(text);
  }

  lemma {:induction false} TailHasNoNewline(text: string)
    ensures '\n' !in Tail(text)
  {
    if text != "" && text[|text| - 1] != '\n' {
      TailHasNoNewline(text[..|text| - 1]);
      assert Tail(text) == Tail(text[..|text| - 1]) + [text[|text| - 1]];
    }
  }
}
