/** The width of the bar under a pulsing cell: how far it reaches from the middle column, from the time left. */
module Countdown {
  const WRAP: nat := 0x1_0000_0000

  type uint32 = n: nat | n < WRAP

  const MAX_RADIUS: nat := 8

  /** a / d, rounded up. */
  function Ceiling(a: nat, d: nat): nat
    requires d > 0
  {
    (a + d - 1) / d
  }

  lemma CeilingAtMost(a: nat, d: nat, k: nat)
    requires d > 0
    ensures Ceiling(a, d) <= k <==> a <= k * d
  {
    var q, m := (a + d - 1) / d, (a + d - 1) % d;
    assert a + d - 1 == q * d + m && m < d;
    if q <= k {
      assert q * d <= k * d;
    } else {
      assert q * d >= (k + 1) * d == k * d + d;
    }
  }

  /** The radius for a time left; a bar that is shown has at least its middle column. */
  function Radius(remaining: nat, duration: nat): nat
    requires duration > 0
  {
    var left := if remaining > duration then duration else remaining;
    var radius := Ceiling(left * MAX_RADIUS, duration);
    if radius == 0 then 1 else radius
  }

  /** 0 when there is no bar. The firmware keeps thirty-two bits of the time left. */
  function FirmwareRadius(duration: uint32, end: int, now: int): nat {
    if duration == 0 || end <= now then 0 else Radius((end - now) % WRAP, duration)
  }

  function PreviewRadius(duration: nat, end: int, now: int): nat {
    if duration == 0 || end <= now then 0 else Radius(end - now, duration)
  }

  lemma RadiusBounds(remaining: nat, duration: nat)
    requires duration > 0
    ensures 1 <= Radius(remaining, duration) <= MAX_RADIUS
    ensures Radius(remaining, duration) == MAX_RADIUS <==> remaining * MAX_RADIUS > 7 * duration
  {
    var left := if remaining > duration then duration else remaining;
    CeilingAtMost(left * MAX_RADIUS, duration, 8);
    CeilingAtMost(left * MAX_RADIUS, duration, 7);
  }

  /** More than k eighths of the duration are left. */
  predicate OverEighths(remaining: nat, duration: nat, k: nat) {
    MAX_RADIUS * remaining > k * duration
  }

  lemma FewerEighths(duration: nat, k: nat)
    requires duration > 0 && k < MAX_RADIUS
    ensures k * duration < MAX_RADIUS * duration
  {
    assert (MAX_RADIUS - k) * duration > 0;
  }

  lemma OverByCeiling(remaining: nat, duration: nat, part: nat, more: bool)
    requires duration > 0 && part < MAX_RADIUS * duration
    requires more <==> (if remaining > duration then duration else remaining) * MAX_RADIUS > part
    ensures more <==> MAX_RADIUS * remaining > part
  {
  }

  lemma RadiusOver(remaining: nat, duration: nat, k: nat)
    requires duration > 0 && 1 <= k < MAX_RADIUS
    ensures Radius(remaining, duration) > k <==> OverEighths(remaining, duration, k)
  {
    var left := if remaining > duration then duration else remaining;
    CeilingAtMost(left * MAX_RADIUS, duration, k);
    FewerEighths(duration, k);
    OverByCeiling(remaining, duration, k * duration, Radius(remaining, duration) > k);
  }

  /** A bar of one to eight columns to a side, more than k of them exactly while more than k eighths are left. */
  predicate Reaches(r: nat, left: int, duration: nat) {
    1 <= r <= 8 && forall k :: 1 <= k < 8 ==> (r > k <==> 8 * left > k * duration)
  }

  lemma RadiusOverAll(left: nat, duration: nat)
    requires duration > 0
    ensures Reaches(Radius(left, duration), left, duration)
  {
    RadiusBounds(left, duration);
    forall k: nat | 1 <= k < 8
      ensures Radius(left, duration) > k <==> 8 * left > k * duration
    {
      RadiusOver(left, duration, k);
    }
  }

  /** Two bars are equally long exactly when the same eighths of the two durations are left. */
  lemma SameRadiusIff(left1: nat, duration1: nat, left2: nat, duration2: nat)
    requires duration1 > 0 && duration2 > 0
    ensures Radius(left1, duration1) == Radius(left2, duration2) <==>
            forall k :: 1 <= k < MAX_RADIUS ==> (OverEighths(left1, duration1, k) <==> OverEighths(left2, duration2, k))
  {
    RadiusBounds(left1, duration1);
    RadiusBounds(left2, duration2);
    var a, b := Radius(left1, duration1), Radius(left2, duration2);
    forall k | 1 <= k < MAX_RADIUS
      ensures (a > k <==> OverEighths(left1, duration1, k)) && (b > k <==> OverEighths(left2, duration2, k))
    {
      RadiusOver(left1, duration1, k);
      RadiusOver(left2, duration2, k);
    }
    if a < b {
      assert OverEighths(left2, duration2, a) && !OverEighths(left1, duration1, a);
    } else if b < a {
      assert OverEighths(left1, duration1, b) && !OverEighths(left2, duration2, b);
    }
  }

  lemma RadiusMonotone(less: nat, more: nat, duration: nat)
    requires duration > 0 && less <= more
    ensures Radius(less, duration) <= Radius(more, duration)
  {
    var l := if less > duration then duration else less;
    var m := if more > duration then duration else more;
    var r := Ceiling(m * MAX_RADIUS, duration);
    CeilingAtMost(m * MAX_RADIUS, duration, r);
    CeilingAtMost(l * MAX_RADIUS, duration, r);
  }

  /** A bar is shown exactly until the pulse ends, and stays strictly inside its cell's columns. */
  lemma BarInsideCell(duration: uint32, end: int, now: int, cellX: nat)
    ensures var r := FirmwareRadius(duration, end, now);
            && r <= MAX_RADIUS && (r > 0 <==> duration > 0 && now < end)
            && (r > 0 ==> var left := cellX + 8 - r + 1;
                          cellX + 1 <= left && left + (2 * r - 1) <= cellX + 16)
  {
    if duration > 0 && now < end {
      RadiusBounds((end - now) % WRAP, duration);
    }
  }

  lemma ShrinksWithin(duration: uint32, end: int, a: int, b: int)
    requires a <= b && end - a < WRAP
    ensures FirmwareRadius(duration, end, b) <= FirmwareRadius(duration, end, a)
  {
    if duration > 0 && b < end {
      assert (end - b) % WRAP == end - b && (end - a) % WRAP == end - a;
      RadiusMonotone(end - b, end - a, duration);
    }
  }

  lemma JumpsAtWrap(duration: uint32, end: int)
    requires duration > 0
    ensures FirmwareRadius(duration, end, end - WRAP) == 1
    ensures FirmwareRadius(duration, end, end - WRAP + 1) == MAX_RADIUS
  {
    CeilingAtMost(0, duration, 0);
    RadiusBounds(WRAP - 1, duration);
  }

  ghost predicate NeverGrows(duration: uint32, end: int, now: int) {
    forall a, b :: now <= a <= b ==> FirmwareRadius(duration, end, b) <= FirmwareRadius(duration, end, a)
  }

  /** The bar never grows while the pulse runs down, exactly when the time left fits thirty-two bits. */
  lemma NeverGrowsIff(duration: uint32, end: int, now: int)
    requires duration > 0 && now < end
    ensures NeverGrows(duration, end, now) <==> end - now < WRAP
  {
    if end - now < WRAP {
      forall a, b | now <= a <= b
        ensures FirmwareRadius(duration, end, b) <= FirmwareRadius(duration, end, a)
      {
        ShrinksWithin(duration, end, a, b);
      }
    } else {
      JumpsAtWrap(duration, end);
      var a := end - WRAP;
      assert now <= a <= a + 1;
    }
  }

  lemma AgreeIff(left: nat, duration: uint32)
    requires duration > 0
    ensures Radius(left % WRAP, duration) == Radius(left, duration) <==>
            left < WRAP || left % WRAP * MAX_RADIUS > 7 * duration
  {
    if left < WRAP {
      assert left % WRAP == left;
    } else {
      RadiusBounds(left % WRAP, duration);
      RadiusBounds(left, duration);
    }
  }

  /** The two renderers show the same bar exactly when the wrapped time left is still long enough for a full one. */
  lemma RadiiAgreeIff(duration: uint32, end: int, now: int)
    ensures FirmwareRadius(duration, end, now) == PreviewRadius(duration, end, now) <==>
            || duration == 0 || end - now < WRAP || (end - now) % WRAP * MAX_RADIUS > 7 * duration
  {
    if duration > 0 && now < end {
      AgreeIff(end - now, duration);
    }
  }
}
