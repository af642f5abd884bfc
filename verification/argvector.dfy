/**
 * Building blocks of an argument vector: `Valued` and `Guarded` for an
 * optional `flag value`, `Switch` for a bare flag, `Pairs` for a repeated
 * option, and `Expanded`, which substitutes each entry before it is paired.
 * Three readers take segments back off the front of a token sequence:
 * `TakeValued`, `TakeSwitch` and `TakePairs`.
 */
module ArgVector {
  import opened Wrappers

  /** `flag value`, emitted only when `present`. */
  function Guarded(flag: string, present: bool, value: string): seq<string>
  {
    if present then [flag, value] else []
  }

  /** `flag value`, emitted only when the value is non-empty. */
  function Valued(flag: string, value: string): seq<string>
  {
    Guarded(flag, value != "", value)
  }

  /** A bare flag, emitted only when `on`. */
  function Switch(flag: string, on: bool): seq<string>
  {
    if on then [flag] else []
  }

  /** One `flag x` pair per entry of `xs`, in order. */
  function Pairs(flag: string, xs: seq<string>): (r: seq<string>)
    ensures |r| == 2 * |xs|
    ensures |xs| > 0 ==> r[0] == flag && r[1] == xs[0]
    decreases |xs|
  {
    if |xs| == 0 then [] else [flag, xs[0]] + Pairs(flag, xs[1..])
  }

  /** Entry `i` sits at position `2 * i + 1`, right after its own copy of the flag. */
  lemma {:induction false} PairsAt(flag: string, xs: seq<string>, i: nat)
    requires i < |xs|
    ensures Pairs(flag, xs)[2 * i] == flag && Pairs(flag, xs)[2 * i + 1] == xs[i]
    decreases i
  {
    if i > 0 {
      PairsAt(flag, xs[1..], i - 1);
      assert Pairs(flag, xs) == [flag, xs[0]] + Pairs(flag, xs[1..]);
    }
  }

  /** `expand` applied to every entry, order kept. */
  function Expanded(expand: string -> string, xs: seq<string>): (r: seq<string>)
    ensures |r| == |xs|
    ensures forall i :: 0 <= i < |xs| ==> r[i] == expand(xs[i])
    decreases |xs|
  {
    if |xs| == 0 then [] else [expand(xs[0])] + Expanded(expand, xs[1..])
  }

  /** The token sequence starts with `flag`. */
  predicate Leads(ts: seq<string>, flag: string)
  {
    |ts| > 0 && ts[0] == flag
  }

  /** Reads an optional `flag value`: `None` when the flag is not next, so `flag ""` is told apart from absence. */
  function TakeValued(flag: string, ts: seq<string>): (r: (Option<string>, seq<string>))
  {
    if |ts| >= 2 && ts[0] == flag then (Some(ts[1]), ts[2..]) else (None, ts)
  }

  /** `flag value` for a value that is given, nothing for one that is not. */
  function Given(flag: string, value: Option<string>): seq<string>
  {
    if value.Some? then [flag, value.value] else []
  }

  /** Reads an optional bare flag. */
  function TakeSwitch(flag: string, ts: seq<string>): (r: (bool, seq<string>))
  {
    if Leads(ts, flag) then (true, ts[1..]) else (false, ts)
  }

  /** Reads the longest run of `flag x` pairs off the front. */
  function TakePairs(flag: string, ts: seq<string>): (r: (seq<string>, seq<string>))
    ensures Pairs(flag, r.0) + r.1 == ts
    ensures !Leads(r.1, flag) || |r.1| == 1
    decreases |ts|
  {
    if |ts| >= 2 && ts[0] == flag then
      var (vs, rest) := TakePairs(flag, ts[2..]);
      ([ts[1]] + vs, rest)
    else
      ([], ts)
  }

  /** Pairs of a concatenation are the concatenation of the pairs. */
  lemma {:induction false} PairsAppend(flag: string, xs: seq<string>, ys: seq<string>)
    ensures Pairs(flag, xs + ys) == Pairs(flag, xs) + Pairs(flag, ys)
    decreases |xs|
  {
    if |xs| == 0 {
      assert xs + ys == ys;
    } else {
      assert (xs + ys)[1..] == xs[1..] + ys;
      PairsAppend(flag, xs[1..], ys);
    }
  }

  /** Expansion works entry by entry, so it distributes over concatenation. */
  lemma {:induction false} ExpandedAppend(expand: string -> string, xs: seq<string>, ys: seq<string>)
    ensures Expanded(expand, xs + ys) == Expanded(expand, xs) + Expanded(expand, ys)
    decreases |xs|
  {
    if |xs| == 0 {
      assert xs + ys == ys;
    } else {
      assert (xs + ys)[1..] == xs[1..] + ys;
      ExpandedAppend(expand, xs[1..], ys);
    }
  }

  lemma PairsSnoc(flag: string, xs: seq<string>, x: string)
    ensures Pairs(flag, xs + [x]) == Pairs(flag, xs) + [flag, x]
  {
    PairsAppend(flag, xs, [x]);
    assert Pairs(flag, [x]) == [flag, x];
  }

  lemma ExpandedSnoc(expand: string -> string, xs: seq<string>, x: string)
    ensures Expanded(expand, xs + [x]) == Expanded(expand, xs) + [expand(x)]
  {
    ExpandedAppend(expand, xs, [x]);
    assert Expanded(expand, [x]) == [expand(x)];
  }

  lemma AppendAssoc(xs: seq<string>, ys: seq<string>, zs: seq<string>)
    ensures (xs + ys) + zs == xs + (ys + zs)
  {
  }

  /** Regroups a left-nested concatenation of five parts followed by a tail to the right. */
  lemma Regroup(v: seq<string>, w: seq<string>, x: seq<string>, y: seq<string>, z: seq<string>, rest: seq<string>)
    ensures v + w + x + y + z + rest == v + (w + (x + (y + (z + rest))))
  {
  }

  /** Appending a left-nested concatenation of five parts is appending them one by one. */
  lemma AppendFive(xs: seq<string>, v: seq<string>, w: seq<string>, x: seq<string>, y: seq<string>, z: seq<string>)
    ensures xs + (v + w + x + y + z) == xs + v + w + x + y + z
  {
  }

  /** A non-empty sequence is its head followed by its tail. */
  lemma HeadTail(xs: seq<string>)
    requires |xs| > 0
    ensures xs == [xs[0]] + xs[1..]
  {
  }

  lemma ConsAppend(xs: seq<string>, ys: seq<string>)
    requires |xs| > 0
    ensures [xs[0]] + (xs[1..] + ys) == xs + ys
  {
    assert xs == [xs[0]] + xs[1..];
  }

  /** Reading a run of pairs back recovers its entries, and then carries on into what follows. */
  lemma {:induction false} TakePairsOfPairs(flag: string, xs: seq<string>, rest: seq<string>)
    ensures TakePairs(flag, Pairs(flag, xs) + rest) == (xs + TakePairs(flag, rest).0, TakePairs(flag, rest).1)
    decreases |xs|
  {
    if |xs| == 0 {
      assert Pairs(flag, xs) + rest == rest;
      assert xs + TakePairs(flag, rest).0 == TakePairs(flag, rest).0;
    } else {
      var tail := Pairs(flag, xs[1..]);
      var ts := [flag, xs[0]] + (tail + rest);
      assert Pairs(flag, xs) + rest == ts;
      assert ts[2..] == tail + rest;
      TakePairsOfPairs(flag, xs[1..], rest);
      var after := TakePairs(flag, rest);
      assert TakePairs(flag, ts) == ([xs[0]] + (xs[1..] + after.0), after.1);
      ConsAppend(xs, after.0);
    }
  }

  /** A run of pairs followed by something not led by the flag reads back exactly. */
  lemma PairsRoundTrip(flag: string, xs: seq<string>, rest: seq<string>)
    requires !Leads(rest, flag)
    ensures TakePairs(flag, Pairs(flag, xs) + rest) == (xs, rest)
  {
    TakePairsOfPairs(flag, xs, rest);
    assert xs + [] == xs;
  }

  /** An optional `flag value` reads back as its value, or as `None` when it was left out. */
  lemma GuardedRoundTrip(flag: string, present: bool, value: string, rest: seq<string>)
    requires !Leads(rest, flag)
    ensures TakeValued(flag, Guarded(flag, present, value) + rest) == (if present then Some(value) else None, rest)
  {
    if present {
      assert ([flag, value] + rest)[2..] == rest;
    } else {
      assert Guarded(flag, present, value) + rest == rest;
    }
  }

  /** A bare flag reads back as whether it was emitted. */
  lemma SwitchRoundTrip(flag: string, on: bool, rest: seq<string>)
    requires !Leads(rest, flag)
    ensures TakeSwitch(flag, Switch(flag, on) + rest) == (on, rest)
  {
    if on {
      assert ([flag] + rest)[1..] == rest;
    } else {
      assert Switch(flag, on) + rest == rest;
    }
  }

  /** Reading an optional `flag value` loses nothing: re-emitting what was read restores the input. */
  lemma TakeValuedLossless(flag: string, ts: seq<string>)
    ensures Given(flag, TakeValued(flag, ts).0) + TakeValued(flag, ts).1 == ts
  {
    if |ts| >= 2 && ts[0] == flag {
      assert ts == [ts[0], ts[1]] + ts[2..];
    } else {
      assert ts == [] + ts;
    }
  }

  /** Reading a bare flag loses nothing: re-emitting what was read restores the input. */
  lemma TakeSwitchLossless(flag: string, ts: seq<string>)
    ensures Switch(flag, TakeSwitch(flag, ts).0) + TakeSwitch(flag, ts).1 == ts
  {
    if Leads(ts, flag) {
      assert ts == [ts[0]] + ts[1..];
    } else {
      assert ts == [] + ts;
    }
  }
}
