/** A first-order Markov chain over MIDI note numbers: training records, for
    every note, the notes observed right after it; generation walks the
    chain from a start note. */
module Markov {

  /** The `transitions` dictionary: each note to the list of its observed successors. */
  type Transitions = map<int, seq<int>>

  /** The successor list of `note`, or the empty list when it has no entry. */
  function Successors(t: Transitions, note: int): seq<int>
  {
    if note in t then t[note] else []
  }

  /** Every key maps to a non-empty list, so a uniform index into it exists. */
  ghost predicate NonEmptyLists(t: Transitions)
  {
    forall note :: note in t ==> |t[note]| > 0
  }

  /** Number of (current, next) pairs `Train` visits: `sequence.Length - 1`, never negative. */
  function PairCount(s: seq<int>): nat
  {
    if |s| <= 1 then 0 else |s| - 1
  }

  /** One iteration of Train's loop: append `next` to the list of `current`,
      creating the list first when the key is missing. */
  function Record(t: Transitions, current: int, next: int): Transitions
  {
    t[current := Successors(t, current) + [next]]
  }

  /** The dictionary after the first `n` pairs of `s` have been recorded, in order. */
  function TrainedPrefix(t: Transitions, s: seq<int>, n: nat): Transitions
    requires n <= PairCount(s)
  {
    if n == 0 then t else Record(TrainedPrefix(t, s, n - 1), s[n - 1], s[n])
  }

  /** The dictionary after `Train(s)`. */
  function Trained(t: Transitions, s: seq<int>): Transitions
  {
    TrainedPrefix(t, s, PairCount(s))
  }

  /** Independent description of what training adds for `note`: the notes
      that follow an occurrence of `note` among the first `n` pairs of `s`,
      in order of occurrence, with repetitions. */
  function FollowersIn(s: seq<int>, n: nat, note: int): seq<int>
    requires n <= PairCount(s)
  {
    if n == 0 then []
    else FollowersIn(s, n - 1, note) + (if s[n - 1] == note then [s[n]] else [])
  }

  /** A note walk step: a trained successor, or a repeat of a note that has no entry. */
  predicate Step(t: Transitions, current: int, next: int)
  {
    if current in t then next in t[current] else next == current
  }

  /** Training appends exactly the observed followers to each list. */
  lemma {:induction false} TrainedPrefixContents(t: Transitions, s: seq<int>, n: nat, note: int)
    requires n <= PairCount(s)
    ensures Successors(TrainedPrefix(t, s, n), note) == Successors(t, note) + FollowersIn(s, n, note)
  {
    if n > 0 {
      TrainedPrefixContents(t, s, n - 1, note);
      var before := TrainedPrefix(t, s, n - 1);
      if s[n - 1] == note {
        calc {
          Successors(TrainedPrefix(t, s, n), note);
          Successors(before, note) + [s[n]];
          Successors(t, note) + FollowersIn(s, n - 1, note) + [s[n]];
        }
      } else {
        assert FollowersIn(s, n, note) == FollowersIn(s, n - 1, note);
      }
    }
  }

  /** Training adds exactly the notes that start a pair as keys. */
  lemma {:induction false} TrainedPrefixKeys(t: Transitions, s: seq<int>, n: nat, note: int)
    requires n <= PairCount(s)
    ensures note in TrainedPrefix(t, s, n) <==> note in t || exists i :: 0 <= i < n && s[i] == note
  {
    if n > 0 {
      TrainedPrefixKeys(t, s, n - 1, note);
      if s[n - 1] == note {
        assert note in TrainedPrefix(t, s, n);
      }
    }
  }

  /** `FollowersIn` holds the successor of every matching position. */
  lemma {:induction false} FollowersInHasPair(s: seq<int>, n: nat, i: nat)
    requires n <= PairCount(s) && i < n
    ensures s[i + 1] in FollowersIn(s, n, s[i])
  {
    if i < n - 1 {
      FollowersInHasPair(s, n - 1, i);
    }
  }

  /** After training on `s`, every adjacent pair of `s` is a recorded transition. */
  lemma TrainedRecordsEveryPair(t: Transitions, s: seq<int>)
    ensures forall i :: 0 <= i < |s| - 1 ==> s[i] in Trained(t, s) && s[i + 1] in Trained(t, s)[s[i]]
  {
    forall i | 0 <= i < |s| - 1
      ensures s[i] in Trained(t, s) && s[i + 1] in Trained(t, s)[s[i]]
    {
      TrainedPrefixContents(t, s, PairCount(s), s[i]);
      FollowersInHasPair(s, PairCount(s), i);
    }
  }

  /** Training only appends: every existing list survives as a prefix, and no key is lost. */
  lemma TrainedOnlyAppends(t: Transitions, s: seq<int>)
    ensures t.Keys <= Trained(t, s).Keys
    ensures forall note :: note in t ==> t[note] <= Trained(t, s)[note]
  {
    forall note | note in t
      ensures note in Trained(t, s) && t[note] <= Trained(t, s)[note]
    {
      TrainedPrefixContents(t, s, PairCount(s), note);
      TrainedPrefixKeys(t, s, PairCount(s), note);
    }
  }

  /** Training never leaves an empty list behind. */
  lemma {:induction false} TrainedPrefixKeepsNonEmpty(t: Transitions, s: seq<int>, n: nat)
    requires n <= PairCount(s)
    requires NonEmptyLists(t)
    ensures NonEmptyLists(TrainedPrefix(t, s, n))
  {
    if n > 0 {
      TrainedPrefixKeepsNonEmpty(t, s, n - 1);
    }
  }

  /** Every successor list of `t` holds only notes of `notes`. */
  ghost predicate SuccessorsWithin(t: Transitions, notes: set<int>)
  {
    forall note, i :: note in t && 0 <= i < |t[note]| ==> t[note][i] in notes
  }

  /** Training on notes drawn from `notes` keeps every list within `notes`. */
  lemma {:induction false} TrainedPrefixWithin(t: Transitions, s: seq<int>, n: nat, notes: set<int>)
    requires n <= PairCount(s)
    requires SuccessorsWithin(t, notes)
    requires forall i :: 0 <= i < |s| ==> s[i] in notes
    ensures SuccessorsWithin(TrainedPrefix(t, s, n), notes)
  {
    if n > 0 {
      TrainedPrefixWithin(t, s, n - 1, notes);
    }
  }

  /** A walk whose every step follows `t` stays within `notes` once it starts there
      and every successor list lies within `notes`. */
  lemma {:induction false} WalkStaysWithin(t: Transitions, walk: seq<int>, notes: set<int>)
    requires SuccessorsWithin(t, notes)
    requires |walk| > 0 && walk[0] in notes
    requires forall i :: 1 <= i < |walk| ==> Step(t, walk[i - 1], walk[i])
    ensures forall i :: 0 <= i < |walk| ==> walk[i] in notes
  {
    if |walk| > 1 {
      var prefix := walk[..|walk| - 1];
      WalkStaysWithin(t, prefix, notes);
      var last := walk[|walk| - 1];
      var prev := walk[|walk| - 2];
      assert prev in notes;
      if prev in t {
        assert last in t[prev];
        var j :| 0 <= j < |t[prev]| && t[prev][j] == last;
      }
    }
  }

  class MarkovChain {
    /** Each note to the list of notes observed right after it. */
    var transitions: Transitions

    ghost predicate Valid()
      reads this
    {
      NonEmptyLists(transitions)
    }

    constructor ()
      ensures Valid() && transitions == map[]
    {
      transitions := map[];
    }

    /** Records every adjacent pair of `sequence`, appending in order. */
    method Train(sequence: seq<int>)
      requires Valid()
      modifies this
      ensures Valid()
      ensures transitions == Trained(old(transitions), sequence)
      ensures |sequence| <= 1 ==> transitions == old(transitions)
    {
      var i := 0;
      while i < |sequence| - 1
        invariant 0 <= i <= PairCount(sequence)
        invariant transitions == TrainedPrefix(old(transitions), sequence, i)
      {
        var current := sequence[i];
        var next := sequence[i + 1];
        if current !in transitions {
          transitions := transitions[current := []];
        }
        transitions := transitions[current := transitions[current] + [next]];
        i := i + 1;
      }
      TrainedPrefixKeepsNonEmpty(old(transitions), sequence, PairCount(sequence));
    }

    /** A successor of `current` picked at an arbitrary index (the random draw),
        or `current` itself when it was never trained. */
    method Next(current: int) returns (note: int)
      requires Valid()
      ensures Step(transitions, current, note)
      ensures current !in transitions ==> note == current
    {
      if current !in transitions {
        return current;
      }
      var possibilities := transitions[current];
      var k :| 0 <= k < |possibilities|;
      note := possibilities[k];
    }

    /** A walk of `length` notes starting at `startNote`. */
    method Generate(startNote: int, length: int) returns (result: array<int>)
      requires Valid()
      requires length >= 1
      ensures fresh(result)
      ensures result.Length == length && result[0] == startNote
      ensures forall i :: 1 <= i < length ==> Step(transitions, result[i - 1], result[i])
    {
      result := new int[length];
      result[0] := startNote;
      for i := 1 to length
        invariant result[0] == startNote
        invariant forall j :: 1 <= j < i ==> Step(transitions, result[j - 1], result[j])
      {
        result[i] := Next(result[i - 1]);
      }
    }
  }
}
