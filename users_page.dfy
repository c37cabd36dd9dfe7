/** The user lookup page: the lookup by number and its state (`userInfo`, `loading`,
    `error`), and the four Quick Stats figures computed from the record's histories. */
module UsersLookup {
  import opened Common

  datatype UsageEntry = UsageEntry(month: string, usage: int)
  /** `paid` is 0 or 1 in the stored data; any non-zero value counts as paid. */
  datatype PaymentEntry = PaymentEntry(month: string, paid: int)
  datatype AlertEntry = AlertEntry(month: string, alerts: int)

  /** The record `/users/number/{number}` returns. */
  datatype UserInfo = UserInfo(
    name: string, number: string, email: string, status: string, region: string,
    segment: string, phase: string, createdAt: string,
    usageHistory: seq<UsageEntry>, paymentHistory: seq<PaymentEntry>,
    alertHistory: seq<AlertEntry>, recentActivity: seq<string>)

  const NotFoundMessage := "No user found for that number."

  // ----- Quick Stats -----

  /** Usage (kWh): the sum of `usage` over the history. */
  function UsageTotal(h: seq<UsageEntry>): int {
    if h == [] then 0 else UsageTotal(h[..|h| - 1]) + h[|h| - 1].usage
  }

  /** Bills: the number of payment entries whose `paid` is truthy. */
  function PaidBills(h: seq<PaymentEntry>): (n: nat)
    ensures n <= |h|
    ensures n == 0 <==> forall i :: 0 <= i < |h| ==> h[i].paid == 0
    ensures n == |h| <==> forall i :: 0 <= i < |h| ==> h[i].paid != 0
  {
    if h == [] then 0
    else
      var rest := PaidBills(h[..|h| - 1]);
      assert forall i :: 0 <= i < |h| - 1 ==> h[..|h| - 1][i] == h[i];
      rest + (if h[|h| - 1].paid != 0 then 1 else 0)
  }

  /** Last Payment: the month of the last payment entry, or '-' when there is none (or
      its month is empty). */
  function LastPayment(h: seq<PaymentEntry>): (m: string)
    ensures h == [] ==> m == "-"
    ensures h != [] ==> m == Or(h[|h| - 1].month, "-")
  {
    if h == [] then "-" else Or(h[|h| - 1].month, "-")
  }

  /** Alerts: the sum of `alerts` over the history. */
  function AlertTotal(h: seq<AlertEntry>): int {
    if h == [] then 0 else AlertTotal(h[..|h| - 1]) + h[|h| - 1].alerts
  }

  /** The usage total of two stretches of history is the sum of their totals. */
  lemma {:induction false} UsageTotalAppend(a: seq<UsageEntry>, b: seq<UsageEntry>)
    ensures UsageTotal(a + b) == UsageTotal(a) + UsageTotal(b)
    decreases |b|
  {
    if b == [] {
      assert a + b == a;
    } else {
      assert (a + b)[..|a + b| - 1] == a + b[..|b| - 1];
      assert (a + b)[|a + b| - 1] == b[|b| - 1];
      UsageTotalAppend(a, b[..|b| - 1]);
    }
  }

  /** Alerts add up the same way. */
  lemma {:induction false} AlertTotalAppend(a: seq<AlertEntry>, b: seq<AlertEntry>)
    ensures AlertTotal(a + b) == AlertTotal(a) + AlertTotal(b)
    decreases |b|
  {
    if b == [] {
      assert a + b == a;
    } else {
      assert (a + b)[..|a + b| - 1] == a + b[..|b| - 1];
      assert (a + b)[|a + b| - 1] == b[|b| - 1];
      AlertTotalAppend(a, b[..|b| - 1]);
    }
  }

  /** Totals of readings that are never negative are never negative, and each reading
      is at most the total. */
  lemma {:induction false} UsageTotalBounds(h: seq<UsageEntry>)
    requires forall i :: 0 <= i < |h| ==> h[i].usage >= 0
    ensures UsageTotal(h) >= 0
    ensures forall i :: 0 <= i < |h| ==> h[i].usage <= UsageTotal(h)
  {
    if h != [] {
      var init := h[..|h| - 1];
      assert forall i :: 0 <= i < |init| ==> init[i] == h[i];
      UsageTotalBounds(init);
    }
  }

  /** A payment appended to the history becomes the Last Payment (when it names its
      month), and counts as a bill exactly when it is paid. */
  lemma AppendPayment(h: seq<PaymentEntry>, p: PaymentEntry)
    ensures p.month != "" ==> LastPayment(h + [p]) == p.month
    ensures PaidBills(h + [p]) == PaidBills(h) + (if p.paid != 0 then 1 else 0)
  {
    assert (h + [p])[..|h + [p]| - 1] == h;
  }

  // ----- the page -----

  class UsersPage {
    var search: string
    var userInfo: Option<UserInfo>
    var loading: bool
    var error: Option<string>
    /** The numbers looked up so far, in order. */
    var lookups: seq<string>

    constructor ()
      ensures search == "" && userInfo.None? && !loading && error.None? && lookups == []
    {
      search := "";
      userInfo := None;
      loading := false;
      error := None;
      lookups := [];
    }

    /** The input's change handler. */
    method SetSearch(text: string)
      modifies this`search
      ensures search == text
    {
      search := text;
    }

    /** What `handleGetUser` shows while its one request is pending. */
    method BeginLookup()
      modifies this
      ensures loading && error.None? && userInfo.None?
      ensures lookups == old(lookups) + [search] && search == old(search)
    {
      loading := true;
      error := None;
      userInfo := None;
      lookups := lookups + [search];
    }

    /** How `handleGetUser` ends: `found` is the record returned, or the message of the
        error thrown, which the page replaces by a fixed message. */
    method FinishLookup(found: Result<UserInfo, string>)
      modifies this
      ensures !loading
      ensures found.Ok? ==> userInfo == Some(found.value) && error == old(error)
      ensures found.Err? ==> userInfo.None? && error == Some(NotFoundMessage)
      ensures search == old(search) && lookups == old(lookups)
    {
      if found.Ok? {
        userInfo := Some(found.value);
      } else {
        userInfo := None;
        error := Some(NotFoundMessage);
      }
      loading := false;
    }

    /** `handleGetUser`: exactly one lookup of the number typed; no partial record is
        ever kept from a failed one. */
    method HandleGetUser(found: Result<UserInfo, string>)
      modifies this
      ensures !loading
      ensures lookups == old(lookups) + [old(search)] && search == old(search)
      ensures found.Ok? ==> userInfo == Some(found.value) && error.None?
      ensures found.Err? ==> userInfo.None? && error == Some(NotFoundMessage)
    {
      BeginLookup();
      FinishLookup(found);
    }
  }
}
