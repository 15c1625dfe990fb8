/**
 What can be taken back: a bounded session stack, whose entry under way is held by
 identity and not by position.
 */
module UndoStack {
  import opened Wrappers
  import opened Paths

  datatype Item = Item(path: Bytes, trashedAs: Bytes, info: Bytes)

  datatype Deed =
    | WasMoved(source: Bytes, destination: Bytes)
    | WasTrashed(items: seq<Item>)
    | WasRenamed(to: Bytes, originalName: Bytes)

  /** `tag` is the object's identity: no two entries ever made share one. */
  datatype Entry = Entry(tag: nat, deed: Deed)

  const DEPTH := 50

  /******* The stack as a value *******/

  datatype Stack = Stack(entries: seq<Entry>, inFlight: Option<Entry>, busy: bool, made: nat) {
    ghost predicate Valid() {
      && |entries| <= DEPTH
      && (forall i, k | 0 <= i < k < |entries| :: entries[i].tag < entries[k].tag)
      && (forall e | e in entries :: e.tag < made)
      && (busy <==> inFlight.Some?) && (inFlight.Some? ==> inFlight.value.tag < made)
    }

    function Push(deed: Deed): Stack {
      this.(entries := Pushed(entries, Entry(made, deed)), made := made + 1)
    }

    function Begin(): Stack {
      if entries == [] then this else this.(inFlight := Some(entries[|entries| - 1]), busy := true)
    }

    function Retire(e: Option<Entry>): Stack {
      if e.None? then this else this.(entries := Without(entries, e.value))
    }

    function Release(): Stack { this.(busy := false, inFlight := None) }

    function Pop(): Stack { if entries == [] then this else this.(entries := entries[..|entries| - 1]) }

    /** With nothing in flight this spends the top, whatever it is. */
    function Commit(): Stack {
      if inFlight.None? then this.(busy := false).Pop() else Release().Retire(inFlight)
    }
  }

  /** The oldest goes when there is no room. */
  function Pushed(es: seq<Entry>, e: Entry): seq<Entry> {
    var all := es + [e];
    if |all| > DEPTH then all[1..] else all
  }

  function Without(es: seq<Entry>, e: Entry): seq<Entry> {
    if es == [] then [] else if es[0] == e then es[1..] else [es[0]] + Without(es[1..], e)
  }

  /** Exactly that entry goes; the others keep their order. */
  lemma {:induction false} WithoutTakesOne(es: seq<Entry>, e: Entry)
    requires forall i, k | 0 <= i < k < |es| :: es[i].tag < es[k].tag
    ensures forall f :: f in Without(es, e) <==> f in es && f != e
    ensures |Without(es, e)| == |es| - if e in es then 1 else 0
    ensures forall i, k | 0 <= i < k < |Without(es, e)| :: Without(es, e)[i].tag < Without(es, e)[k].tag
  {
    if es != [] {
      assert es == [es[0]] + es[1..];
      WithoutTakesOne(es[1..], e);
      assert forall f | f in Without(es[1..], e) :: f in es[1..] && es[0].tag < f.tag;
    }
  }

  function PushAll(s: Stack, deeds: seq<Deed>): Stack
    decreases deeds
  {
    if deeds == [] then s else PushAll(s.Push(deeds[0]), deeds[1..])
  }

  lemma {:induction false} PushKeeps(s: Stack, deeds: seq<Deed>)
    requires s.Valid()
    ensures PushAll(s, deeds).Valid() && PushAll(s, deeds).inFlight == s.inFlight
    decreases deeds
  {
    if deeds != [] { PushKeeps(s.Push(deeds[0]), deeds[1..]); }
  }

  lemma {:induction false} FlightDoesNotMatter(s: Stack, t: Stack, deeds: seq<Deed>)
    requires s.entries == t.entries && s.made == t.made
    ensures PushAll(s, deeds).entries == PushAll(t, deeds).entries
    decreases deeds
  {
    if deeds != [] { FlightDoesNotMatter(s.Push(deeds[0]), t.Push(deeds[0]), deeds[1..]); }
  }

  /** Whatever is recorded while an undo is under way, its success spends its own
      entry and no other. */
  lemma CommitSpendsItsOwn(s: Stack, deeds: seq<Deed>)
    requires s.Valid() && s.entries != [] && !s.busy
    ensures var top := s.entries[|s.entries| - 1];
            var done, plain := PushAll(s.Begin(), deeds).Commit(), PushAll(s, deeds);
            && done.Valid() && !done.busy
            && forall f :: f in done.entries <==> f in plain.entries && f != top
  {
    PushKeeps(s.Begin(), deeds);
    FlightDoesNotMatter(s, s.Begin(), deeds);
    WithoutTakesOne(PushAll(s, deeds).entries, s.entries[|s.entries| - 1]);
  }

  lemma {:induction false} WithoutTop(es: seq<Entry>)
    requires es != [] && forall i, k | 0 <= i < k < |es| :: es[i].tag < es[k].tag
    ensures Without(es, es[|es| - 1]) == es[..|es| - 1]
  {
    if |es| > 1 {
      WithoutTop(es[1..]);
      assert es[1..][|es| - 2] == es[|es| - 1];
      assert [es[0]] + es[1..][..|es| - 2] == es[..|es| - 1];
    }
  }

  /** Undisturbed, an undo that succeeds is a pop. */
  lemma CommitIsPop(s: Stack)
    requires s.Valid() && !s.busy
    ensures s.entries != [] ==> s.Begin().Commit() == s.Pop()
  {
    if s.entries != [] { WithoutTop(s.entries); }
  }

  /******* The component *******/

  class SessionStack {
    var entries: seq<Entry>
    var busy: bool
    var inFlight: Option<Entry>
    var made: nat

    ghost function Value(): Stack
      reads this
    {
      Stack(entries, inFlight, busy, made)
    }

    constructor ()
      ensures Value() == Stack([], None, false, 0) && Value().Valid()
    {
      entries, busy, inFlight, made := [], false, None, 0;
    }

    method Push(deed: Deed)
      modifies this
      ensures Value() == old(Value()).Push(deed)
      ensures |old(entries)| < 50 ==> entries == old(entries) + [Entry(old(made), deed)]
      ensures |old(entries)| == 50 ==> entries == old(entries[1..]) + [Entry(old(made), deed)]
    {
      var next := entries + [Entry(made, deed)];
      made := made + 1;
      if |next| > DEPTH { next := next[1..]; }
      entries := next;
    }

    method Begin()
      modifies this
      ensures Value() == old(Value()).Begin()
    {
      if |entries| == 0 { return; }
      inFlight := Some(entries[|entries| - 1]);
      busy := true;
    }

    method Retire(entry: Option<Entry>) returns (removed: Option<Entry>)
      modifies this
      ensures Value() == old(Value()).Retire(entry)
      ensures removed == if entry.Some? && entry.value in old(entries) then entry else None
    {
      hide Without;
      removed := None;
      if entry == None { return; }
      var next := [];
      for i := 0 to |entries|
        invariant Value() == old(Value())
        invariant removed == None ==>
          entry.value !in entries[..i] && next + Without(entries[i..], entry.value) == Without(entries, entry.value)
        invariant removed != None ==>
          && removed == entry && entry.value in entries
          && next + entries[i..] == Without(entries, entry.value)
      {
        WithoutStep(entries, i, entry.value);
        Regroup(next, [entries[i]], entries[i + 1..]);
        Regroup(next, [entries[i]], Without(entries[i + 1..], entry.value));
        if removed == None && entries[i] == entry.value { removed := Some(entries[i]); continue; }
        next := next + [entries[i]];
      }
      assert entries[..|entries|] == entries;
      if removed == None { Absent(entries, entry.value); return; }
      entries := next;
    }

    method Pop() returns (top: Option<Entry>)
      modifies this
      ensures Value() == old(Value()).Pop()
      ensures top == if old(entries) == [] then None else Some(old(entries)[|old(entries)| - 1])
    {
      if |entries| == 0 { return None; }
      top := Some(entries[|entries| - 1]);
      entries := entries[..|entries| - 1];
    }

    method Commit() returns (spent: Option<Entry>)
      modifies this
      ensures Value() == old(Value()).Commit()
    {
      busy := false;
      var target := inFlight;
      inFlight := None;
      if target == None { spent := Pop(); } else { spent := Retire(target); }
    }

    method Release()
      modifies this
      ensures Value() == old(Value()).Release()
    {
      busy, inFlight := false, None;
    }
  }

  lemma WithoutStep(es: seq<Entry>, i: nat, e: Entry)
    requires i < |es|
    ensures es[i..] == [es[i]] + es[i + 1..] && es[..i + 1] == es[..i] + [es[i]]
    ensures Without(es[i..], e) == if es[i] == e then es[i + 1..] else [es[i]] + Without(es[i + 1..], e)
  {
    assert es[i..][1..] == es[i + 1..];
  }

  lemma Regroup(a: seq<Entry>, b: seq<Entry>, c: seq<Entry>)
    ensures (a + b) + c == a + (b + c)
  {
  }

  lemma {:induction false} Absent(es: seq<Entry>, e: Entry)
    requires e !in es
    ensures Without(es, e) == es
  {
    if es != [] { Absent(es[1..], e); }
  }
}
