/** The list of on-screen notifications: each `show*` call appends one entry whose id is the
    current time in milliseconds written in decimal, and an entry leaves the list when its
    toast closes or, for a loading entry, when the caller runs the dismiss function it got
    back. The clock is a parameter. */
module NotificationContext {
  import opened Common

  datatype Kind = Success | Error | Loading | Info

  datatype Notification = Notification(id: string, kind: Kind, message: string, duration: Option<int>)

  const SuccessDuration := 3000
  const ErrorDuration := 5000
  const InfoDuration := 3000

  function DigitChar(d: nat): char
    requires d < 10
  {
    ('0' as int + d) as char
  }

  /** `n.toString()` for a non-negative integer: its decimal digits, no leading zeros. */
  function Decimal(n: nat): (r: string)
    ensures |r| >= 1
    ensures n >= 10 ==> |r| >= 2
    ensures forall k :: 0 <= k < |r| ==> '0' <= r[k] <= '9'
  {
    if n < 10 then [DigitChar(n)] else Decimal(n / 10) + [DigitChar(n % 10)]
  }

  /** Different numbers are written differently, so two notifications share an id exactly
      when they were created in the same millisecond. */
  lemma {:induction false} DecimalInjective(a: nat, b: nat)
    ensures Decimal(a) == Decimal(b) <==> a == b
  {
    if Decimal(a) == Decimal(b) && a >= 10 && b >= 10 {
      var da, db := Decimal(a), Decimal(b);
      assert da[|da| - 1] == DigitChar(a % 10) && db[|db| - 1] == DigitChar(b % 10);
      assert da[..|da| - 1] == Decimal(a / 10) && db[..|db| - 1] == Decimal(b / 10);
      DecimalInjective(a / 10, b / 10);
    } else if Decimal(a) == Decimal(b) && a < 10 && b < 10 {
      assert Decimal(a)[0] == DigitChar(a);
    }
  }

  /** `Date.now().toString()`. */
  function ClockId(now: nat): string {
    Decimal(now)
  }

  /** `list.filter(n => n.id !== id)`. */
  function WithoutId(list: seq<Notification>, id: string): (r: seq<Notification>)
    ensures |r| <= |list|
    ensures forall n :: n in r ==> n in list && n.id != id
  {
    if list == [] then []
    else
      (if list[0].id == id then [] else [list[0]]) + WithoutId(list[1..], id)
  }

  /** Removal works entry by entry, so the survivors keep their order. */
  lemma {:induction false} WithoutIdAppend(a: seq<Notification>, b: seq<Notification>, id: string)
    ensures WithoutId(a + b, id) == WithoutId(a, id) + WithoutId(b, id)
  {
    if a == [] {
      assert a + b == b;
    } else {
      assert (a + b)[1..] == a[1..] + b;
      WithoutIdAppend(a[1..], b, id);
    }
  }

  /** Every entry with another id stays, as many times as it was there. */
  lemma {:induction false} WithoutIdKeepsOthers(list: seq<Notification>, id: string, n: Notification)
    requires n.id != id
    ensures multiset(WithoutId(list, id))[n] == multiset(list)[n]
  {
    if list != [] {
      WithoutIdKeepsOthers(list[1..], id, n);
      assert list == [list[0]] + list[1..];
    }
  }

  /** Removing an id nobody carries changes nothing. */
  lemma {:induction false} WithoutAbsentId(list: seq<Notification>, id: string)
    requires forall n :: n in list ==> n.id != id
    ensures WithoutId(list, id) == list
  {
    if list != [] {
      WithoutAbsentId(list[1..], id);
    }
  }

  /** Removing twice is removing once. */
  lemma WithoutIdIdempotent(list: seq<Notification>, id: string)
    ensures WithoutId(WithoutId(list, id), id) == WithoutId(list, id)
  {
    WithoutAbsentId(WithoutId(list, id), id);
  }

  /** Two notifications shown in the same millisecond share their id, so closing either of
      them removes both; one shown in another millisecond survives. */
  lemma SameMillisecondRemovedTogether(list: seq<Notification>, a: Notification, b: Notification,
                                       c: Notification, now: nat, later: nat)
    requires a.id == ClockId(now) && b.id == ClockId(now) && c.id == ClockId(later) && later != now
    ensures WithoutId(list + [a, b, c], a.id) == WithoutId(list, a.id) + [c]
  {
    DecimalInjective(now, later);
    WithoutIdAppend(list, [a, b, c], a.id);
    assert [a, b, c][1..] == [b, c] && [b, c][1..] == [c] && [c][1..] == [];
    assert WithoutId([c], a.id) == [c] + WithoutId([], a.id);
    assert WithoutId([b, c], a.id) == WithoutId([c], a.id);
    assert WithoutId([a, b, c], a.id) == WithoutId([b, c], a.id);
  }

  class NotificationCenter {
    var notifications: seq<Notification>

    constructor()
      ensures notifications == []
    {
      notifications := [];
    }

    /** `showNotification`: appends one entry stamped with the clock. */
    method ShowNotification(kind: Kind, message: string, duration: Option<int>, now: nat)
      modifies this
      ensures notifications == old(notifications) + [Notification(ClockId(now), kind, message, duration)]
    {
      notifications := notifications + [Notification(ClockId(now), kind, message, duration)];
    }

    method ShowSuccess(message: string, now: nat)
      modifies this
      ensures notifications ==
                old(notifications) + [Notification(ClockId(now), Success, message, Some(SuccessDuration))]
    {
      ShowNotification(Success, message, Some(SuccessDuration), now);
    }

    method ShowError(message: string, now: nat)
      modifies this
      ensures notifications ==
                old(notifications) + [Notification(ClockId(now), Error, message, Some(ErrorDuration))]
    {
      ShowNotification(Error, message, Some(ErrorDuration), now);
    }

    method ShowInfo(message: string, now: nat)
      modifies this
      ensures notifications ==
                old(notifications) + [Notification(ClockId(now), Info, message, Some(InfoDuration))]
    {
      ShowNotification(Info, message, Some(InfoDuration), now);
    }

    /** `showLoading`: appends a loading entry with no duration and hands back what its
        dismiss function removes, the entry's id. */
    method ShowLoading(message: string, now: nat) returns (dismissId: string)
      modifies this
      ensures dismissId == ClockId(now)
      ensures notifications == old(notifications) + [Notification(dismissId, Loading, message, None)]
    {
      dismissId := ClockId(now);
      notifications := notifications + [Notification(dismissId, Loading, message, None)];
    }

    /** `removeNotification`, also what a loading entry's dismiss function runs. */
    method RemoveNotification(id: string)
      modifies this
      ensures notifications == WithoutId(old(notifications), id)
    {
      notifications := WithoutId(notifications, id);
    }
  }
}
