/**
  The Memento pattern: an Originator holding one string state, immutable
  ConcreteMemento snapshots of that state, and a Caretaker that keeps an
  ordered list of snapshots with backup, undo and a history listing.

  The wall clock read by the memento's constructor and the shuffle used to
  generate random states are parameters here.
*/
module Memento {
  import opened Wrappers

  function Min(a: int, b: int): int { if a <= b then a else b }

  /** PHP's substr for a non-negative offset and length: the characters of s
      from offset on, at most length of them, and "" when offset lies at or
      past the end of s. */
  function Substr(s: string, offset: nat, length: nat): (r: string)
    ensures offset <= |s| ==> |r| == Min(length, |s| - offset)
    ensures offset >= |s| ==> r == ""
    ensures forall i :: 0 <= i < |r| ==> offset + i < |s| && r[i] == s[offset + i]
  {
    if offset >= |s| then "" else s[offset .. Min(|s|, offset + length)]
  }

  // ---------------------------------------------------------------------
  // Random states
  // ---------------------------------------------------------------------

  /** The alphabet the random states are drawn from. */
  const Letters: string := "abcdefghijklmnopqrstuvwxyzABCDEFGHIJKLMNOPQRSTUVWXYZ"

  /** PHP's str_repeat: n copies of s, one after another. */
  function Repeat(s: string, n: nat): (r: string)
    ensures |r| == n * |s|
    ensures n > 0 ==> r[..|s|] == s
    ensures forall i :: 0 <= i < |r| ==> r[i] in s
  {
    if n == 0 then "" else s + Repeat(s, n - 1)
  }

  /** str_repeat's result repeats with period |s|: together with its prefix
      s, it is n copies of s. */
  lemma {:induction false} RepeatPeriodic(s: string, n: nat)
    ensures forall i :: 0 <= i < |Repeat(s, n)| - |s| ==> Repeat(s, n)[i + |s|] == Repeat(s, n)[i]
  {
    if n > 0 {
      RepeatPeriodic(s, n - 1);
      var r, t := Repeat(s, n), Repeat(s, n - 1);
      assert r == s + t;
      assert |r| == |s| + |t|;
      forall i | 0 <= i < |r| - |s|
        ensures r[i + |s|] == r[i]
      {
        if i < |s| {
          assert n - 1 > 0;
          assert t == s + Repeat(s, n - 2);
          assert r[i + |s|] == t[i] == s[i] == r[i];
        } else {
          var j := i - |s|;
          assert 0 <= j < |t| - |s|;
          assert t[j + |s|] == t[j];
          assert r[i + |s|] == t[i] && r[i] == t[j];
        }
      }
    }
  }

  /** ceil(length / 52) copies of the alphabet cover length characters, with
      none to spare exactly when length is a multiple of 52. */
  lemma PoolCovers(length: nat)
    ensures var p := ((length + |Letters| - 1) / |Letters|) * |Letters|;
      && p >= length
      && (length % |Letters| == 0 <==> p == length)
  {
  }

  /** The string that generateRandomString shuffles: the alphabet repeated
      ceil(length / 52) times. */
  function ShufflePool(length: nat): (r: string)
    ensures |r| == ((length + |Letters| - 1) / |Letters|) * |Letters|
    ensures |r| >= length
    ensures length % |Letters| == 0 <==> |r| == length
    ensures forall i :: 0 <= i < |r| ==> r[i] in Letters
  {
    PoolCovers(length);
    Repeat(Letters, (length + |Letters| - 1) / |Letters|)
  }

  /** A possible outcome of str_shuffle on s: shuffled is s rearranged by
      the permutation perm of its positions, so shuffled[i] == s[perm[i]]. */
  predicate IsShuffleOf(shuffled: string, s: string, perm: seq<nat>)
  {
    && |perm| == |s| == |shuffled|
    && (forall i :: 0 <= i < |perm| ==> perm[i] < |s| && shuffled[i] == s[perm[i]])
    && (forall i, j :: 0 <= i < j < |perm| ==> perm[i] != perm[j])
  }

  /** generateRandomString as written, with the shuffled pool as a
      parameter: the substring of length characters starting at offset 1. */
  function GenerateRandomString(length: nat, shuffled: string): (r: string)
    ensures |r| <= length
    ensures |shuffled| > length ==> |r| == length
    ensures forall i :: 0 <= i < |r| ==> i + 1 < |shuffled| && r[i] == shuffled[i + 1]
  {
    Substr(shuffled, 1, length)
  }

  /** generateRandomString with the evidently intended offset 0. */
  function IntendedRandomString(length: nat, shuffled: string): (r: string)
    ensures |r| <= length
    ensures |shuffled| >= length ==> |r| == length
    ensures forall i :: 0 <= i < |r| ==> i < |shuffled| && r[i] == shuffled[i]
  {
    Substr(shuffled, 0, length)
  }

  /** As written, the generated string is one character short whenever the
      requested length is a positive multiple of 52; for every other length
      it has the requested length. It only ever holds letters. */
  lemma GenerateRandomStringLength(length: nat, shuffled: string, perm: seq<nat>)
    requires IsShuffleOf(shuffled, ShufflePool(length), perm)
    ensures var r := GenerateRandomString(length, shuffled);
      && |r| == (if length > 0 && length % |Letters| == 0 then length - 1 else length)
      && forall i :: 0 <= i < |r| ==> r[i] in Letters
  {
  }

  /** The concrete input that shows the discrepancy: asking for 52
      characters with the unshuffled alphabet as the shuffle yields 51. */
  lemma GenerateRandomStringShortAt52()
    ensures IsShuffleOf(Letters, ShufflePool(52), seq(52, i => i))
    ensures |GenerateRandomString(52, Letters)| == 51
  {
  }

  /** With offset 0 the generated string has exactly the requested length and
      holds only letters. */
  lemma IntendedRandomStringShape(length: nat, shuffled: string, perm: seq<nat>)
    requires IsShuffleOf(shuffled, ShufflePool(length), perm)
    ensures var r := IntendedRandomString(length, shuffled);
      && |r| == length
      && forall i :: 0 <= i < |r| ==> r[i] in Letters
  {
  }

  // ---------------------------------------------------------------------
  // Mementos
  // ---------------------------------------------------------------------

  /** A snapshot of the originator's state together with the time it was
      taken. It has no setters: both parts are fixed at construction. */
  datatype ConcreteMemento = ConcreteMemento(state: string, date: string)
  {
    /** The state captured at construction. */
    function GetState(): (s: string)
      ensures s == state
    {
      state
    }

    function GetDate(): (d: string)
      ensures d == date
    {
      date
    }

    /** The display label: the date, then the first (at most) nine
        characters of the state in parentheses followed by an ellipsis. */
    function GetName(): (n: string)
      ensures |n| == |date| + 4 + Min(9, |state|) + 4
      ensures n[..|date|] == date
      ensures n[|date| ..|date| + 4] == " / ("
      ensures n[|date| + 4 .. |n| - 4] == state[..Min(9, |state|)]
      ensures n[|n| - 4..] == "...)"
    {
      date + " / (" + Substr(state, 0, 9) + "...)"
    }
  }

  /** The label shows only a preview: two states that agree on their first
      nine characters get the same label at the same date. */
  lemma NameShowsOnlyPreview(m1: ConcreteMemento, m2: ConcreteMemento)
    requires m1.date == m2.date
    requires |m1.state| >= 9 && |m2.state| >= 9 && m1.state[..9] == m2.state[..9]
    ensures m1.GetName() == m2.GetName()
  {
  }

  // ---------------------------------------------------------------------
  // The state machine the Originator and Caretaker implement together
  // ---------------------------------------------------------------------

  /** The originator's state together with the caretaker's mementos,
      oldest first. */
  datatype World = World(state: string, history: seq<ConcreteMemento>)

  /** The states a history holds, oldest first. */
  function States(h: seq<ConcreteMemento>): (s: seq<string>)
    ensures |s| == |h| && forall i :: 0 <= i < |h| ==> s[i] == h[i].GetState()
  {
    if h == [] then [] else [h[0].state] + States(h[1..])
  }

  /** The states of a six-memento history, the length the demo ends with. */
  lemma StatesOfSix(h: seq<ConcreteMemento>)
    requires |h| == 6
    ensures States(h) == [h[0].state, h[1].state, h[2].state, h[3].state, h[4].state, h[5].state]
  {
  }

  /** The labels of a history, oldest first. */
  function Labels(h: seq<ConcreteMemento>): (ls: seq<string>)
    ensures |ls| == |h| && forall i :: 0 <= i < |h| ==> ls[i] == h[i].GetName()
  {
    if h == [] then [] else [h[0].GetName()] + Labels(h[1..])
  }

  /** The operations a client performs on an originator and its caretaker. */
  datatype Event =
    | Backup(date: string)           // Caretaker::backup, at the given time
    | Handle(next: string)           // Originator::handle, which moved to state next
    | Undo                           // Caretaker::undo
    | Restore(m: ConcreteMemento)    // Originator::restore from m

  function Step(w: World, e: Event): (w': World)
    ensures e.Backup? ==> w'.state == w.state && w'.history == w.history + [ConcreteMemento(w.state, e.date)]
    ensures e.Undo? ==>
      && w'.state == w.state
      && (if w.history == [] then w'.history == [] else w'.history + [w.history[|w.history| - 1]] == w.history)
    ensures e.Handle? ==> w' == World(e.next, w.history)
    ensures e.Restore? ==> w' == World(e.m.GetState(), w.history)
  {
    match e
    case Backup(date) => World(w.state, w.history + [ConcreteMemento(w.state, date)])
    case Handle(next) => World(next, w.history)
    case Undo => if w.history == [] then w else World(w.state, w.history[..|w.history| - 1])
    case Restore(m) => World(m.GetState(), w.history)
  }

  function RunEvents(w: World, es: seq<Event>): World
    decreases |es|
  {
    if es == [] then w else RunEvents(Step(w, es[0]), es[1..])
  }

  /** A backup captures the current state as the new newest memento and
      changes nothing else. */
  lemma BackupAppends(w: World, date: string)
    ensures var w' := Step(w, Backup(date));
      && |w'.history| == |w.history| + 1
      && w'.history[..|w.history|] == w.history
      && w'.history[|w.history|].GetState() == w.state
      && w'.state == w.state
  {
  }

  /** Undo on an empty history changes nothing; otherwise it removes exactly
      the newest memento. It never changes the originator's state. */
  lemma UndoRemovesNewest(w: World)
    ensures var w' := Step(w, Undo);
      && w'.state == w.state
      && (w.history == [] ==> w'.history == [])
      && (w.history != [] ==> w'.history + [w.history[|w.history| - 1]] == w.history)
  {
  }

  /** Undo is the inverse of backup. */
  lemma UndoInvertsBackup(w: World, date: string)
    ensures Step(Step(w, Backup(date)), Undo) == w
  {
  }

  lemma {:induction false} RunEventsAppend(w: World, es: seq<Event>, fs: seq<Event>)
    ensures RunEvents(w, es + fs) == RunEvents(RunEvents(w, es), fs)
    decreases |es|
  {
    if es == [] {
      assert es + fs == fs;
    } else {
      assert (es + fs)[1..] == es[1..] + fs;
      RunEventsAppend(Step(w, es[0]), es[1..], fs);
    }
  }

  function Undos(k: nat): (es: seq<Event>)
    ensures |es| == k && forall i :: 0 <= i < k ==> es[i] == Undo
  {
    seq(k, _ => Undo)
  }

  /** k undos remove the newest k mementos (all of them when there are fewer
      than k), keep the order of the rest, and leave the state alone. */
  lemma {:induction false} UndosDrain(w: World, k: nat)
    ensures RunEvents(w, Undos(k))
         == World(w.state, w.history[..|w.history| - Min(k, |w.history|)])
    decreases k
  {
    if k > 0 {
      assert Undos(k)[1..] == Undos(k - 1);
      var w1 := Step(w, Undo);
      UndosDrain(w1, k - 1);
      if w.history == [] {
        assert w.history[..0] == w.history;
      }
    } else {
      assert w.history[..|w.history|] == w.history;
    }
  }

  /** Restoring from a memento brings back exactly the state it captured,
      whatever happened since it was taken. */
  lemma {:induction false} RestoreRoundTrip(w: World, date: string, es: seq<Event>)
    ensures var m := ConcreteMemento(w.state, date);
      RunEvents(w, es + [Restore(m)]).state == w.state
  {
    var m := ConcreteMemento(w.state, date);
    RunEventsAppend(w, es, [Restore(m)]);
  }

  /** The client loop of the pattern: back up, then let the originator move
      on, once per date. */
  function Session(dates: seq<string>, nexts: seq<string>): (es: seq<Event>)
    requires |dates| == |nexts|
    ensures |es| == 2 * |dates|
  {
    if dates == [] then [] else [Backup(dates[0]), Handle(nexts[0])] + Session(dates[1..], nexts[1..])
  }

  /** The states a session captures, oldest first: the start state, then each
      state the originator moved to except the last. */
  function Captured(start: string, dates: seq<string>, nexts: seq<string>): (ms: seq<ConcreteMemento>)
    requires |dates| == |nexts|
    ensures |ms| == |dates|
  {
    seq(|dates|, i requires 0 <= i < |dates| => ConcreteMemento(([start] + nexts)[i], dates[i]))
  }

  /** n backups taken one after another list the n captured states
      oldest first, after the mementos that were already there. */
  lemma {:induction false} SessionRecordsInOrder(w: World, dates: seq<string>, nexts: seq<string>)
    requires |dates| == |nexts| > 0
    ensures RunEvents(w, Session(dates, nexts))
         == World(nexts[|nexts| - 1], w.history + Captured(w.state, dates, nexts))
    decreases |dates|
  {
    var w2 := World(nexts[0], w.history + [ConcreteMemento(w.state, dates[0])]);
    var rest := Session(dates[1..], nexts[1..]);
    assert Session(dates, nexts) == [Backup(dates[0]), Handle(nexts[0])] + rest;
    RunEventsAppend(w, [Backup(dates[0]), Handle(nexts[0])], rest);
    assert RunEvents(w, [Backup(dates[0]), Handle(nexts[0])]) == w2 by {
      var w1 := Step(w, Backup(dates[0]));
      assert [Backup(dates[0]), Handle(nexts[0])][1..] == [Handle(nexts[0])];
      assert RunEvents(w, [Backup(dates[0]), Handle(nexts[0])]) == RunEvents(w1, [Handle(nexts[0])]);
      assert [Handle(nexts[0])][1..] == [];
      assert RunEvents(w1, [Handle(nexts[0])]) == RunEvents(w2, []);
    }
    if |dates| == 1 {
      assert rest == [];
      assert Captured(w.state, dates, nexts) == [ConcreteMemento(w.state, dates[0])];
    } else {
      SessionRecordsInOrder(w2, dates[1..], nexts[1..]);
      var c := Captured(w.state, dates, nexts);
      var c' := Captured(nexts[0], dates[1..], nexts[1..]);
      assert c == [ConcreteMemento(w.state, dates[0])] + c' by {
        forall i | 1 <= i < |c| ensures c[i] == c'[i - 1] {
          assert ([w.state] + nexts)[i] == nexts[i - 1] == ([nexts[0]] + nexts[1..])[i - 1];
        }
      }
    }
  }

  /** Without undo, the history only grows at its end: every memento already
      there, the oldest one included, stays where it is. */
  lemma {:induction false} NoUndoKeepsHistory(w: World, es: seq<Event>)
    requires forall i :: 0 <= i < |es| ==> !es[i].Undo?
    ensures var h := RunEvents(w, es).history;
      |h| >= |w.history| && h[..|w.history|] == w.history
    decreases |es|
  {
    if es != [] {
      var w1 := Step(w, es[0]);
      assert |w1.history| >= |w.history| && w1.history[..|w.history|] == w.history;
      NoUndoKeepsHistory(w1, es[1..]);
      var h := RunEvents(w1, es[1..]).history;
      assert h[..|w.history|] == h[..|w1.history|][..|w.history|];
    }
  }

  // ---------------------------------------------------------------------
  // Originator and Caretaker
  // ---------------------------------------------------------------------

  class Originator {
    var state: string

    constructor (state: string)
      ensures this.state == state
    {
      this.state := state;
    }

    /** Something happens to the originator: its state becomes a random
        string cut from the shuffled pool (30 letters when shuffled is a
        shuffle of the pool, by IntendedRandomStringShape). */
    method Handle(shuffled: string)
      modifies this
      ensures state == IntendedRandomString(30, shuffled)
      ensures |state| <= 30 && (|shuffled| >= 30 ==> |state| == 30)
    {
      state := IntendedRandomString(30, shuffled);
    }

    /** A memento of the current state, stamped with date. */
    function Save(date: string): (m: ConcreteMemento)
      reads this
      ensures m.GetState() == state && m.GetDate() == date
    {
      ConcreteMemento(state, date)
    }

    method Restore(m: ConcreteMemento)
      modifies this
      ensures state == m.GetState()
    {
      state := m.GetState();
    }
  }

  /** Save, any number of handle calls, then restore: the originator is back
      in the state it had when the memento was taken. */
  method SaveHandleRestore(o: Originator, date: string, shuffles: seq<string>)
    modifies o
    ensures o.state == old(o.state)
  {
    var m := o.Save(date);
    for i := 0 to |shuffles|
      invariant i > 0 ==> o.state == IntendedRandomString(30, shuffles[i - 1])
    {
      o.Handle(shuffles[i]);
    }
    o.Restore(m);
  }

  class Caretaker {
    var mementos: seq<ConcreteMemento>
    const originator: Originator

    constructor (originator: Originator)
      ensures this.originator == originator && mementos == []
    {
      this.originator := originator;
      mementos := [];
    }

    /** Appends a memento of the originator's current state. */
    method Backup(date: string)
      modifies this
      ensures mementos == old(mementos) + [ConcreteMemento(originator.state, date)]
      ensures originator.state == old(originator.state)
      ensures World(originator.state, mementos) == Step(World(old(originator.state), old(mementos)), Event.Backup(date))
    {
      mementos := mementos + [originator.Save(date)];
    }

    /** Pops the newest memento and returns it; does nothing on an empty
        history. The originator is not touched. */
    method Undo() returns (popped: Option<ConcreteMemento>)
      modifies this
      ensures old(mementos) == [] ==> popped == None && mementos == []
      ensures old(mementos) != [] ==>
        && popped == Some(old(mementos)[|old(mementos)| - 1])
        && mementos == old(mementos)[..|old(mementos)| - 1]
      ensures originator.state == old(originator.state)
      ensures World(originator.state, mementos) == Step(World(old(originator.state), old(mementos)), Event.Undo)
    {
      if |mementos| == 0 {
        return None;
      }
      popped := Some(mementos[|mementos| - 1]);
      mementos := mementos[..|mementos| - 1];
    }

    /** The lines showHistory prints: one label per memento, oldest first. */
    method ShowHistory() returns (names: seq<string>)
      ensures |names| == |mementos|
      ensures forall i :: 0 <= i < |names| ==> names[i] == mementos[i].GetName()
      ensures names == Labels(mementos)
    {
      names := [];
      var i := 0;
      while i < |mementos|
        invariant 0 <= i <= |mementos|
        invariant |names| == i
        invariant forall j :: 0 <= j < i ==> names[j] == mementos[j].GetName()
      {
        names := names + [mementos[i].GetName()];
        i := i + 1;
      }
    }
  }

  /** One round of the client script: back up, then let the originator move
      on (the pair of events Session repeats). */
  method BackupAndHandle(caretaker: Caretaker, date: string, shuffled: string)
    modifies caretaker, caretaker.originator
    ensures caretaker.mementos == old(caretaker.mementos) + [ConcreteMemento(old(caretaker.originator.state), date)]
    ensures caretaker.originator.state == IntendedRandomString(30, shuffled)
  {
    caretaker.Backup(date);
    caretaker.originator.Handle(shuffled);
  }

  /** The script's first three backups and the listing that follows them. */
  method OpeningRounds(caretaker: Caretaker, dates: seq<string>, shuffles: seq<string>)
    returns (listing: seq<string>)
    requires |dates| >= 3 && |shuffles| >= 3
    modifies caretaker, caretaker.originator
    ensures caretaker.mementos == old(caretaker.mementos) + [
      ConcreteMemento(old(caretaker.originator.state), dates[0]),
      ConcreteMemento(IntendedRandomString(30, shuffles[0]), dates[1]),
      ConcreteMemento(IntendedRandomString(30, shuffles[1]), dates[2])]
    ensures caretaker.originator.state == IntendedRandomString(30, shuffles[2])
    ensures listing == Labels(caretaker.mementos)
  {
    BackupAndHandle(caretaker, dates[0], shuffles[0]);
    BackupAndHandle(caretaker, dates[1], shuffles[1]);
    BackupAndHandle(caretaker, dates[2], shuffles[2]);
    listing := caretaker.ShowHistory();
  }

  /** Two undos on the opening three mementos leave the first. */
  lemma OldestOfThree(h: seq<ConcreteMemento>)
    requires |h| == 3
    ensures h[..|h| - 2] == [h[0]]
  {
  }

  /** Four backups on a one-memento history, written out. */
  lemma OneThenFour(h: seq<ConcreteMemento>, a: ConcreteMemento, b: ConcreteMemento, c: ConcreteMemento, d: ConcreteMemento)
    requires |h| == 1
    ensures h + [a, b, c, d] == [h[0], a, b, c, d]
  {
  }

  /** The script's two undos in a row: with at least two mementos kept, the
      two newest are dropped and the originator is left as it was. */
  method UndoTwice(caretaker: Caretaker)
    modifies caretaker
    ensures |old(caretaker.mementos)| >= 2 ==>
      caretaker.mementos == old(caretaker.mementos)[..|old(caretaker.mementos)| - 2]
    ensures caretaker.originator.state == old(caretaker.originator.state)
  {
    var _ := caretaker.Undo();
    var _ := caretaker.Undo();
  }

  /** The script's four backups after the two undos, with the clock
      readings and shuffles at positions 3 to 6. */
  method FourRounds(caretaker: Caretaker, dates: seq<string>, shuffles: seq<string>)
    requires |dates| >= 7 && |shuffles| >= 7
    modifies caretaker, caretaker.originator
    ensures caretaker.mementos == old(caretaker.mementos) + [
      ConcreteMemento(old(caretaker.originator.state), dates[3]),
      ConcreteMemento(IntendedRandomString(30, shuffles[3]), dates[4]),
      ConcreteMemento(IntendedRandomString(30, shuffles[4]), dates[5]),
      ConcreteMemento(IntendedRandomString(30, shuffles[5]), dates[6])]
    ensures caretaker.originator.state == IntendedRandomString(30, shuffles[6])
  {
    BackupAndHandle(caretaker, dates[3], shuffles[3]);
    BackupAndHandle(caretaker, dates[4], shuffles[4]);
    BackupAndHandle(caretaker, dates[5], shuffles[5]);
    BackupAndHandle(caretaker, dates[6], shuffles[6]);
  }

  /** The script's last round: restore the originator from a memento, let
      it move on, then back up the state it moved to. */
  method RestartFrom(caretaker: Caretaker, m: ConcreteMemento, shuffled: string, date: string)
    modifies caretaker, caretaker.originator
    ensures caretaker.originator.state == IntendedRandomString(30, shuffled)
    ensures caretaker.mementos == old(caretaker.mementos) + [ConcreteMemento(IntendedRandomString(30, shuffled), date)]
  {
    caretaker.originator.Restore(m);
    caretaker.originator.Handle(shuffled);
    caretaker.Backup(date);
  }

  /** The scenario at the end of the source file, with the clock readings and
      shuffles as parameters: three backups, two undos, four more backups,
      then a restore to the start state, one handle and a last backup. */
  method MementoDemo(dates: seq<string>, shuffles: seq<string>)
    returns (firstListing: seq<string>, lastListing: seq<string>, states: seq<string>)
    requires |dates| >= 9 && |shuffles| >= 8
    ensures firstListing == Labels([
      ConcreteMemento("Dit is het begin", dates[0]),
      ConcreteMemento(IntendedRandomString(30, shuffles[0]), dates[1]),
      ConcreteMemento(IntendedRandomString(30, shuffles[1]), dates[2])])
    ensures |lastListing| == 6 && |states| == 6
    ensures states[0] == "Dit is het begin"
    ensures states[1] == IntendedRandomString(30, shuffles[2])
    ensures states[2] == IntendedRandomString(30, shuffles[3])
    ensures states[3] == IntendedRandomString(30, shuffles[4])
    ensures states[4] == IntendedRandomString(30, shuffles[5])
    ensures states[5] == IntendedRandomString(30, shuffles[7])
    ensures lastListing[0] == ConcreteMemento("Dit is het begin", dates[0]).GetName()
  {
    var originator := new Originator("Dit is het begin");
    var caretaker := new Caretaker(originator);
    ghost var begin := ConcreteMemento("Dit is het begin", dates[0]);

    firstListing := OpeningRounds(caretaker, dates, shuffles);
    ghost var first := [begin, ConcreteMemento(IntendedRandomString(30, shuffles[0]), dates[1]), ConcreteMemento(IntendedRandomString(30, shuffles[1]), dates[2])];
    assert caretaker.mementos == first;

    OldestOfThree(first);
    UndoTwice(caretaker);
    assert caretaker.mementos == [begin];
    assert originator.state == IntendedRandomString(30, shuffles[2]);

    FourRounds(caretaker, dates, shuffles);
    OneThenFour([begin], ConcreteMemento(IntendedRandomString(30, shuffles[2]), dates[3]), ConcreteMemento(IntendedRandomString(30, shuffles[3]), dates[4]),
                ConcreteMemento(IntendedRandomString(30, shuffles[4]), dates[5]), ConcreteMemento(IntendedRandomString(30, shuffles[5]), dates[6]));
    ghost var second: seq<ConcreteMemento> := [begin, ConcreteMemento(IntendedRandomString(30, shuffles[2]), dates[3]), ConcreteMemento(IntendedRandomString(30, shuffles[3]), dates[4]),
                         ConcreteMemento(IntendedRandomString(30, shuffles[4]), dates[5]), ConcreteMemento(IntendedRandomString(30, shuffles[5]), dates[6])];
    assert caretaker.mementos == second;

    RestartFrom(caretaker, ConcreteMemento("Dit is het begin", dates[7]), shuffles[7], dates[8]);
    ghost var final := second + [ConcreteMemento(IntendedRandomString(30, shuffles[7]), dates[8])];
    assert caretaker.mementos == final;

    lastListing := caretaker.ShowHistory();
    states := States(caretaker.mementos);
    StatesOfSix(final);
  }
}
