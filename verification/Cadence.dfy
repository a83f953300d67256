/** When a durable write makes a consolidate due, and how attempts are throttled, for one
    scope between two drains. */
module Cadence {
  import opened Wrappers

  /** Writes since the last due, all writes, and the total at the last attempt. */
  datatype Counts = Counts(writes: int, total: int, last: Option<int>)

  const ZERO := Counts(0, 0, None)

  function Noted(c: Counts, every: int, hint: bool): Counts {
    var c1 := c.(total := c.total + 1);
    if hint then c1.(writes := 0)
    else if every <= 0 then c1
    else c1.(writes := if c.writes + 1 >= every then 0 else c.writes + 1)
  }

  predicate Due(c: Counts, every: int, hint: bool) {
    hint || (every > 0 && c.writes + 1 >= every)
  }

  function Gap(every: int): int
    requires every >= 1
  {
    if every / 5 < 1 then 1 else every / 5
  }

  predicate Allowed(c: Counts, gap: int) {
    c.last.None? || c.total - c.last.value >= gap
  }

  function Attempted(c: Counts, gap: int): Counts {
    if Allowed(c, gap) then c.(last := Some(c.total)) else c
  }

  /** The two critical sections of maybeConsolidate, in any interleaving. */
  datatype Op = Note(hint: bool) | Check

  function Run(every: int, ops: seq<Op>): Counts
    requires every >= 1
  {
    if ops == [] then ZERO
    else
      var c := Run(every, ops[..|ops| - 1]);
      match ops[|ops| - 1]
      case Note(hint) => Noted(c, every, hint)
      case Check => Attempted(c, Gap(every))
  }

  function Attempts(every: int, ops: seq<Op>): nat
    requires every >= 1
  {
    if ops == [] then 0
    else
      var before := ops[..|ops| - 1];
      Attempts(every, before) + if ops[|ops| - 1].Check? && Allowed(Run(every, before), Gap(every)) then 1 else 0
  }

  function Writes(ops: seq<Op>): nat {
    if ops == [] then 0 else Writes(ops[..|ops| - 1]) + if ops[|ops| - 1].Note? then 1 else 0
  }

  /** 1 if the lifetime of the scope begins with a write, 0 if it begins with a throttle check
      whose count fell before the drain that ended the lifetime before. */
  function First(ops: seq<Op>): nat { if ops != [] && ops[0].Note? then 1 else 0 }

  /** Attempts so far are at least a gap apart, and none came before `first` writes. */
  ghost predicate Spaced(c: Counts, attempts: nat, gap: int, first: int) {
    && first <= c.total
    && if c.last.None? then attempts == 0
       else attempts >= 1 && first + (attempts - 1) * gap <= c.last.value <= c.total
  }

  lemma {:induction false} AttemptsAreSpaced(every: int, ops: seq<Op>)
    requires every >= 1
    ensures Run(every, ops).total == Writes(ops)
    ensures Spaced(Run(every, ops), Attempts(every, ops), Gap(every), First(ops))
    decreases |ops|
  {
    if ops != [] {
      var before := ops[..|ops| - 1];
      AttemptsAreSpaced(every, before);
      if before != [] {
        assert First(before) == First(ops);
        var n, gap := Attempts(every, before), Gap(every);
        assert n >= 1 ==> n * gap == (n - 1) * gap + gap;
      }
    }
  }

  lemma SmallMultiple(x: int, d: int, e: int)
    requires d >= 1 && x * d == e && e < d
    ensures x <= 0
  {
    assert x * d == (x - 1) * d + d;
  }

  lemma Quotient(a: int, gap: int, w: int)
    requires gap >= 1 && a * gap <= w
    ensures a <= w / gap
  {
    var q, r := w / gap, w % gap;
    assert (a - q) * gap == a * gap - q * gap;
    SmallMultiple(a - q, gap, a * gap - q * gap);
  }

  lemma FiveFits(every: int)
    requires every >= 5
    ensures every / 5 >= 1
  {
  }

  /** Whatever the hints and however the sections interleave, W writes allow at most
      1 + (W - 1) / max(1, every / 5) attempts; one more write counts for a lifetime that
      begins with a check. */
  lemma AttemptsBounded(every: int, ops: seq<Op>)
    requires every >= 1
    ensures First(ops) <= Writes(ops)
    ensures Attempts(every, ops) <= 1 + (Writes(ops) - First(ops)) / (if every >= 5 then every / 5 else 1)
  {
    AttemptsAreSpaced(every, ops);
    if every < 5 { Unique(every, 5, 0, every); } else { FiveFits(every); }
    assert Gap(every) == if every >= 5 then every / 5 else 1;
    if Attempts(every, ops) >= 1 {
      Quotient(Attempts(every, ops) - 1, Gap(every), Writes(ops) - First(ops));
    }
  }

  /** The smaller bound does not hold for such a lifetime: a check, a write and a check make
      two attempts of one write. */
  lemma CheckFirstGainsOne()
    ensures var ops := [Check, Note(false), Check];
      Writes(ops) == 1 && Attempts(1, ops) == 2 && Attempts(1, ops) > 1 + (Writes(ops) - 1) / Gap(1)
  {
    var one, two, ops := [Check], [Check, Note(false)], [Check, Note(false), Check];
    assert one[..0] == [] && two[..1] == one && ops[..2] == two;
    assert Run(1, one) == ZERO.(last := Some(0)) && Attempts(1, one) == 1;
    assert Run(1, two) == Counts(0, 1, Some(0)) && Attempts(1, two) == 1 && Writes(two) == 1;
  }

  /** maybeConsolidate without hints: a throttle check follows each due at once. */
  function Paced(every: int, w: nat): seq<Op>
    requires every >= 1
  {
    if w == 0 then []
    else
      var before := Paced(every, w - 1);
      before + [Note(false)] + if Due(Run(every, before), every, false) then [Check] else []
  }

  predicate NoHints(ops: seq<Op>) { forall i :: 0 <= i < |ops| ==> ops[i] != Note(true) }

  /** How many of the writes report due. */
  function Dues(every: int, ops: seq<Op>): nat
    requires every >= 1
  {
    if ops == [] then 0
    else
      var before, last := ops[..|ops| - 1], ops[|ops| - 1];
      Dues(every, before) + if last.Note? && Due(Run(every, before), every, last.hint) then 1 else 0
  }

  lemma RunOne(every: int, ops: seq<Op>, op: Op)
    requires every >= 1
    ensures Run(every, ops + [op]) ==
      match op
      case Note(hint) => Noted(Run(every, ops), every, hint)
      case Check => Attempted(Run(every, ops), Gap(every))
    ensures Attempts(every, ops + [op]) ==
      Attempts(every, ops) + if op.Check? && Allowed(Run(every, ops), Gap(every)) then 1 else 0
  {
    assert (ops + [op])[..|ops|] == ops;
  }

  lemma DivStep(w: nat, every: int)
    requires every >= 1
    ensures (w + 1) / every == w / every + if w % every + 1 >= every then 1 else 0
    ensures (w + 1) % every == if w % every + 1 >= every then 0 else w % every + 1
  {
    var q, r := w / every, w % every;
    assert w == q * every + r;
    if r + 1 >= every {
      assert w + 1 == (q + 1) * every;
      Unique(w + 1, every, q + 1, 0);
    } else {
      Unique(w + 1, every, q, r + 1);
    }
  }

  lemma Unique(n: int, d: int, q: int, r: int)
    requires d >= 1 && n == q * d + r && 0 <= r < d
    ensures n / d == q && n % d == r
  {
    var q', r' := n / d, n % d;
    assert (q - q') * d == r' - r && (q' - q) * d == r - r';
    SmallMultiple(q - q', d, r' - r);
    SmallMultiple(q' - q, d, r - r');
  }

  /** The counters after w writes without a hint. */
  ghost predicate Exact(c: Counts, every: int, w: int)
    requires every >= 1
  {
    c.writes == w % every && c.total == w && c.last == if w / every == 0 then None else Some(w - w % every)
  }

  lemma PacedStep(c: Counts, every: int, w: int)
    requires every >= 1 && w >= 0 && Exact(c, every, w)
    ensures var c1 := Noted(c, every, false);
      if Due(c, every, false)
      then Allowed(c1, Gap(every)) && Exact(Attempted(c1, Gap(every)), every, w + 1) && (w + 1) / every == w / every + 1
      else Exact(c1, every, w + 1) && (w + 1) / every == w / every
  {
    DivStep(w, every);
  }

  /** Without hints exactly W / every of W writes report due, however the checks fall between. */
  lemma {:induction false} DuesAreExact(every: int, ops: seq<Op>)
    requires every >= 1 && NoHints(ops)
    ensures Dues(every, ops) == Writes(ops) / every && Run(every, ops).writes == Writes(ops) % every
    decreases |ops|
  {
    if ops == [] {
      Unique(0, every, 0, 0);
    } else {
      var before := ops[..|ops| - 1];
      assert NoHints(before);
      DuesAreExact(every, before);
      assert ops[|ops| - 1] != Note(true);
      DivStep(Writes(before), every);
    }
  }

  lemma PacedWrites(every: int, w: nat)
    requires every >= 1 && w >= 1
    ensures var before := Paced(every, w - 1) + [Note(false)];
      Paced(every, w) == if Due(Run(every, Paced(every, w - 1)), every, false) then before + [Check] else before
  {
  }

  /** Without hints, and each check following its due at once, none is throttled: W writes make
      W / every attempts. */
  lemma {:induction false} NoneThrottled(every: int, w: nat)
    requires every >= 1
    ensures Attempts(every, Paced(every, w)) == w / every
    ensures Exact(Run(every, Paced(every, w)), every, w)
  {
    if w > 0 {
      NoneThrottled(every, w - 1);
      var before := Paced(every, w - 1);
      PacedWrites(every, w);
      PacedStep(Run(every, before), every, w - 1);
      RunOne(every, before, Note(false));
      RunOne(every, before + [Note(false)], Check);
    } else {
      Unique(0, every, 0, 0);
    }
  }

  /** So the attempts are as many as the writes that report due. */
  lemma PacedDues(every: int, w: nat)
    requires every >= 1
    ensures NoHints(Paced(every, w)) && Writes(Paced(every, w)) == w
    ensures Attempts(every, Paced(every, w)) == Dues(every, Paced(every, w)) == w / every
  {
    PacedHasNoHints(every, w);
    NoneThrottled(every, w);
    DuesAreExact(every, Paced(every, w));
  }

  lemma {:induction false} PacedHasNoHints(every: int, w: nat)
    requires every >= 1
    ensures NoHints(Paced(every, w)) && Writes(Paced(every, w)) == w
  {
    if w > 0 {
      var before := Paced(every, w - 1);
      PacedHasNoHints(every, w - 1);
      PacedWrites(every, w);
      WritesOne(before, Note(false));
      WritesOne(before + [Note(false)], Check);
    }
  }

  lemma WritesOne(ops: seq<Op>, op: Op)
    ensures Writes(ops + [op]) == Writes(ops) + if op.Note? then 1 else 0
  {
    assert (ops + [op])[..|ops|] == ops;
  }

  // Hints

  lemma {:induction false} AfterHint(every: int, ops: seq<Op>, rest: seq<Op>)
    requires every >= 1 && NoHints(rest)
    ensures var all := ops + [Note(true)] + rest;
      && Dues(every, all) == Dues(every, ops) + 1 + Writes(rest) / every
      && Run(every, all).writes == Writes(rest) % every
    decreases |rest|
  {
    var all := ops + [Note(true)] + rest;
    if rest == [] {
      assert all == ops + [Note(true)] && all[..|ops|] == ops;
      Unique(0, every, 0, 0);
    } else {
      var before, last := rest[..|rest| - 1], rest[|rest| - 1];
      assert NoHints(before);
      AfterHint(every, ops, before);
      assert all[..|all| - 1] == ops + [Note(true)] + before;
      assert last != Note(true);
      DivStep(Writes(before), every);
    }
  }

  /** A hinted write reports due, whatever came before it, and restarts the cadence: of the W
      writes after it without a hint exactly W / every report due, and none counts from before. */
  lemma HintRestarts(every: int, ops: seq<Op>, rest: seq<Op>)
    requires every >= 1 && NoHints(rest)
    ensures Dues(every, ops + [Note(true)]) == Dues(every, ops) + 1
    ensures Dues(every, ops + [Note(true)] + rest) == Dues(every, ops) + 1 + Writes(rest) / every
  {
    AfterHint(every, ops, rest);
    AfterHint(every, ops, []);
    assert ops + [Note(true)] + [] == ops + [Note(true)];
    Unique(0, every, 0, 0);
  }

  // Throttling

  /** How many writes have come since the last attempt that was allowed; all, if there was none. */
  function SinceAttempt(every: int, ops: seq<Op>): nat
    requires every >= 1
  {
    if ops == [] then 0
    else
      var before, last := ops[..|ops| - 1], ops[|ops| - 1];
      if last.Note? then SinceAttempt(every, before) + 1
      else if Attempts(every, ops) > Attempts(every, before) then 0
      else SinceAttempt(every, before)
  }

  lemma {:induction false} SinceCounts(every: int, ops: seq<Op>)
    requires every >= 1
    ensures var c := Run(every, ops);
      && (c.last.None? <==> Attempts(every, ops) == 0)
      && (c.last.Some? ==> c.total - c.last.value == SinceAttempt(every, ops))
    decreases |ops|
  {
    if ops != [] { SinceCounts(every, ops[..|ops| - 1]); }
  }

  /** A check is an attempt exactly if it is the first, or a fifth of the cadence, and at least
      one write, has been written since the last attempt. */
  lemma ThrottledExactly(every: int, ops: seq<Op>)
    requires every >= 1
    ensures Attempts(every, ops + [Check]) == Attempts(every, ops) + 1 <==>
      Attempts(every, ops) == 0 || SinceAttempt(every, ops) >= (if every >= 5 then every / 5 else 1)
  {
    SinceCounts(every, ops);
    RunOne(every, ops, Check);
    if every < 5 { Unique(every, 5, 0, every); } else { FiveFits(every); }
  }
}
