/** The fixed-window requests-per-minute counter, one atomic script per call.

    Times count milliseconds.  A key holds a value and perhaps an expiry; an expired key is gone. */
module RpmWindow {
  import opened Sums

  const WINDOW := 60_000

  /** What the key stores: a number, or text that does not parse as one. */
  datatype Value = Number(n: int) | Text

  datatype Cell = Missing | Present(value: Value, expiry: Option<int>)

  datatype Op = Check(at: int) | Read(at: int)

  /** The key as the script sees it. */
  function Live(c: Cell, now: int): Cell {
    if c.Present? && c.expiry.Some? && c.expiry.value <= now then Missing else c
  }

  /** The value the script may count on: present, with a running expiry, and numeric. */
  predicate Counting(c: Cell, now: int) {
    Live(c, now).Present? && c.expiry.Some? && c.value.Number?
  }

  predicate Admits(c: Cell, now: int, limit: int) { Counting(c, now) ==> c.value.n < limit }

  function Checked(c: Cell, now: int, limit: int): Cell {
    if !Counting(c, now) then Present(Number(1), Some(now + WINDOW))
    else if c.value.n >= limit then c
    else c.(value := Number(c.value.n + 1))
  }

  /** Reading for the dashboard deletes a key that never expires. */
  function AfterRead(c: Cell, now: int): Cell {
    if Live(c, now).Present? && c.expiry.None? then Missing else c
  }

  function Next(c: Cell, op: Op, limit: int): Cell {
    match op
    case Check(at) => Checked(c, at, limit)
    case Read(at) => AfterRead(c, at)
  }

  predicate Timed(ops: seq<Op>, now: int) {
    ops == [] || (now <= ops[0].at && Timed(ops[1..], ops[0].at))
  }

  /** The calls admitted at times in `[from, from + WINDOW)`. */
  function AdmittedIn(c: Cell, ops: seq<Op>, limit: int, from: int): nat
    decreases |ops|
  {
    if ops == [] then 0 else
      (if ops[0].Check? && Admits(c, ops[0].at, limit) && from <= ops[0].at < from + WINDOW then 1 else 0)
      + AdmittedIn(Next(c, ops[0], limit), ops[1..], limit, from)
  }

  /** Counters are written by the script only, so they are at least one. */
  predicate Sane(c: Cell) { c.Present? && c.value.Number? ==> c.value.n >= 1 }

  /** How many calls the interval can still admit. */
  function Headroom(c: Cell, now: int, limit: nat, from: int): int {
    if now >= from + WINDOW then 0
    else if !Counting(c, now) then if now >= from then limit else 2 * limit - 1
    else
      var left := Max(limit - c.value.n, 0);
      if c.expiry.value >= from + WINDOW then left
      else if c.expiry.value > from then left + limit
      else 2 * limit - 1
  }

  lemma HeadroomShrinks(c: Cell, now: int, later: int, limit: nat, from: int)
    requires now <= later && Sane(c) && limit > 0
    ensures Headroom(c, later, limit, from) <= Headroom(c, now, limit, from)
  {
  }

  lemma CheckUsesHeadroom(c: Cell, now: int, limit: nat, from: int)
    requires Sane(c) && limit > 0
    ensures Headroom(Checked(c, now, limit), now, limit, from)
            + (if Admits(c, now, limit) && from <= now < from + WINDOW then 1 else 0)
            <= Headroom(c, now, limit, from)
    ensures Sane(Checked(c, now, limit))
  {
  }

  lemma ReadUsesNothing(c: Cell, now: int, limit: nat, from: int)
    requires Sane(c)
    ensures Headroom(AfterRead(c, now), now, limit, from) == Headroom(c, now, limit, from)
    ensures Sane(AfterRead(c, now))
  {
  }

  lemma {:induction false} AdmittedWithinHeadroom(c: Cell, ops: seq<Op>, now: int, limit: nat, from: int)
    requires Sane(c) && limit > 0 && Timed(ops, now)
    ensures AdmittedIn(c, ops, limit, from) <= Headroom(c, now, limit, from)
    decreases |ops|
  {
    if ops != [] {
      var at := ops[0].at;
      HeadroomShrinks(c, now, at, limit, from);
      if ops[0].Check? {
        CheckUsesHeadroom(c, at, limit, from);
      } else {
        ReadUsesNothing(c, at, limit, from);
      }
      AdmittedWithinHeadroom(Next(c, ops[0], limit), ops[1..], at, limit, from);
    }
  }

  /** Whatever the stored key, its number being at least one, no interval of a window's length admits more than 2 * limit - 1 calls. */
  lemma AnyMinuteAdmits(c: Cell, ops: seq<Op>, now: int, limit: nat, from: int)
    requires Sane(c) && limit > 0 && Timed(ops, now)
    ensures AdmittedIn(c, ops, limit, from) <= 2 * limit - 1
  {
    AdmittedWithinHeadroom(c, ops, now, limit, from);
  }

  /** From the call that opens a window until it expires, at most `limit` calls are admitted. */
  lemma WindowAdmitsLimit(c: Cell, ops: seq<Op>, start: int, limit: nat)
    requires !Counting(c, start) && Sane(c) && limit > 0 && Timed(ops, start)
    ensures AdmittedIn(c, [Check(start)] + ops, limit, start) <= limit
  {
    AdmittedWithinHeadroom(c, [Check(start)] + ops, start, limit, start);
  }

  // ----- the bound is reached -----

  function Burst(at: int, n: nat): seq<Op> { seq(n, _ => Check(at)) }

  /** A burst against an open window admits what is left, and only that. */
  lemma {:induction false} BurstAdmits(c: Cell, at: int, n: nat, rest: seq<Op>, limit: nat, from: int)
    requires Counting(c, at) && c.value.n + n <= limit
    requires from <= at < from + WINDOW
    ensures AdmittedIn(c, Burst(at, n) + rest, limit, from)
            == n + AdmittedIn(c.(value := Number(c.value.n + n)), rest, limit, from)
    decreases n
  {
    if n == 0 {
      assert Burst(at, 0) + rest == rest;
    } else {
      var ops := Burst(at, n) + rest;
      assert ops[1..] == Burst(at, n - 1) + rest;
      BurstAdmits(Checked(c, at, limit), at, n - 1, rest, limit, from);
    }
  }

  lemma BoundIsReached(limit: nat)
    requires limit > 0
    ensures var last := WINDOW - 1;
            var ops := [Check(0)] + (Burst(last, limit - 1) + ([Check(WINDOW)] + Burst(WINDOW, limit - 1)));
            AdmittedIn(Missing, ops, limit, last) == 2 * limit - 1
  {
    var last := WINDOW - 1;
    var second := [Check(WINDOW)] + Burst(WINDOW, limit - 1);
    var ops := [Check(0)] + (Burst(last, limit - 1) + second);
    assert ops[1..] == Burst(last, limit - 1) + second;
    var open := Present(Number(1), Some(WINDOW));
    var full := Present(Number(limit), Some(WINDOW));
    BurstAdmits(open, last, limit - 1, second, limit, last);
    assert second[1..] == Burst(WINDOW, limit - 1) + [];
    BurstAdmits(Checked(full, WINDOW, limit), WINDOW, limit - 1, [], limit, last);
  }

  // ----- the service -----

  class RpmCounter {
    var cell: Cell

    /** Runs the script: a rejected call leaves the key alone, and a key without an expiry
        never rejects. */
    method CheckRPM(now: int, limit: int) returns (admitted: bool)
      modifies this
      ensures limit <= 0 ==> admitted && cell == old(cell)
      ensures limit > 0 ==> (admitted <==> Admits(old(cell), now, limit))
      ensures limit > 0 ==> cell == Checked(old(cell), now, limit)
      ensures !admitted ==> cell == old(cell)
      ensures limit > 0 && old(cell).Present? && old(cell).expiry.None? ==>
        admitted && cell == Present(Number(1), Some(now + WINDOW))
    {
      if limit <= 0 {
        return true;
      }
      var current := Live(cell, now);
      if current.Missing? || current.expiry.None? || current.value.Text? {
        cell := Present(Number(1), Some(now + WINDOW));
        return true;
      }
      if current.value.n >= limit {
        return false;
      }
      cell := current.(value := Number(current.value.n + 1));
      return true;
    }
  }
}
