/** The recent-activity panel (src/components/admin/RecentActivity.tsx): the newest
    orders first, the first five of them, per-status tallies, elapsed-time labels
    and the status table. `createdAt` is the instant its date string parses to, in
    milliseconds, and `now` is passed in. */
module RecentActivity {
  import opened Text

  datatype Order = Order(
    id: string,
    customerName: string,
    contactPerson: string,
    status: string,
    createdAt: int,
    estimatedValue: int)

  /** Newest first: `createdAt` never increases along the list. */
  predicate NewestFirst(s: seq<Order>) {
    forall i, j :: 0 <= i < j < |s| ==> s[i].createdAt >= s[j].createdAt
  }

  /** Put `x` before the first order that is not newer than it. */
  function Insert(x: Order, s: seq<Order>): (r: seq<Order>)
    requires NewestFirst(s)
    ensures NewestFirst(r)
    ensures multiset(r) == multiset(s) + multiset{x}
    ensures |r| == |s| + 1
    ensures r[0] == x || (s != [] && r[0] == s[0])
  {
    if s == [] || s[0].createdAt <= x.createdAt then
      ConsNewestFirst(x, s);
      [x] + s
    else
      var rest := Insert(x, s[1..]);
      assert s == [s[0]] + s[1..];
      ConsNewestFirst(s[0], rest);
      [s[0]] + rest
  }

  /** An order no older than the head of a newest-first list can go in front. */
  lemma ConsNewestFirst(x: Order, s: seq<Order>)
    requires NewestFirst(s)
    requires s != [] ==> s[0].createdAt <= x.createdAt
    ensures NewestFirst([x] + s)
  {
    var r := [x] + s;
    forall i, j | 0 <= i < j < |r| ensures r[i].createdAt >= r[j].createdAt {
      if i == 0 {
        assert r[j] == s[j - 1];
      } else {
        assert r[i] == s[i - 1] && r[j] == s[j - 1];
      }
    }
  }

  /** `[...orders].sort((a, b) => b.createdAt - a.createdAt)`: a copy of the orders,
      newest first. */
  function SortNewestFirst(orders: seq<Order>): (r: seq<Order>)
    ensures NewestFirst(r)
    ensures multiset(r) == multiset(orders)
    ensures |r| == |orders|
  {
    if orders == [] then []
    else
      assert orders == [orders[0]] + orders[1..];
      Insert(orders[0], SortNewestFirst(orders[1..]))
  }

  /** `sortedOrders.slice(0, 5)`. */
  function RecentOrders(orders: seq<Order>): (r: seq<Order>)
    ensures |r| == if |orders| < 5 then |orders| else 5
    ensures NewestFirst(r)
    ensures multiset(r) <= multiset(orders)
  {
    var sorted := SortNewestFirst(orders);
    var r := if |sorted| <= 5 then sorted else sorted[..5];
    assert sorted == r + sorted[|r|..];
    r
  }

  /** No order left out of the five is newer than one shown. */
  lemma ShownAreNewest(orders: seq<Order>, i: nat, j: nat)
    requires i < |RecentOrders(orders)| <= j < |orders|
    ensures SortNewestFirst(orders)[j].createdAt <= RecentOrders(orders)[i].createdAt
  {
    var sorted := SortNewestFirst(orders);
    assert RecentOrders(orders)[i] == sorted[i];
  }

  /** `recentOrders.filter(order => order.status === status).length`. */
  function Tally(shown: seq<Order>, status: string): (n: nat)
    ensures n <= |shown|
  {
    if shown == [] then 0
    else (if shown[0].status == status then 1 else 0) + Tally(shown[1..], status)
  }

  /** The three tallies never add up to more than the orders shown. */
  lemma {:induction false} TalliesFitShown(shown: seq<Order>)
    ensures Tally(shown, "pending") + Tally(shown, "in-progress") + Tally(shown, "completed") <= |shown|
  {
    if shown != [] {
      TalliesFitShown(shown[1..]);
    }
  }

  /** `formatTimeAgo`'s three forms. */
  datatype TimeAgo = MinutesAgo(minutes: int) | HoursAgo(hours: int) | DaysAgo(days: int)

  /** `formatTimeAgo`: whole hours first; under one hour whole minutes, under a day
      whole hours, otherwise whole days. `Math.floor` of a quotient by a positive
      constant is Dafny's `/`. */
  function FormatTimeAgo(now: int, createdAt: int): (t: TimeAgo)
  {
    var diffInHours := (now - createdAt) / 3_600_000;
    if diffInHours < 1 then MinutesAgo((now - createdAt) / 60_000)
    else if diffInHours < 24 then HoursAgo(diffInHours)
    else DaysAgo(diffInHours / 24)
  }

  /** Each form counts whole units of the elapsed time `d`, and the forms split time
      at one hour and one day. */
  lemma TimeAgoBuckets(now: int, createdAt: int)
    ensures var d := now - createdAt;
      match FormatTimeAgo(now, createdAt)
      case MinutesAgo(m) => d < 3_600_000 && m * 60_000 <= d < (m + 1) * 60_000 && m < 60
      case HoursAgo(h) => 1 <= h < 24 && h * 3_600_000 <= d < (h + 1) * 3_600_000
      case DaysAgo(k) => k >= 1 && k * 86_400_000 <= d < (k + 1) * 86_400_000
  {
    var d := now - createdAt;
    var h := d / 3_600_000;
    assert h * 3_600_000 <= d < (h + 1) * 3_600_000;
    if h >= 24 {
      var k := h / 24;
      assert k * 24 <= h < (k + 1) * 24;
      assert k * 86_400_000 == k * 24 * 3_600_000;
    }
  }

  /** The text shown for an elapsed time. */
  function TimeAgoText(t: TimeAgo): string {
    match t
    case MinutesAgo(m) => IntToString(m) + "분 전"
    case HoursAgo(h) => IntToString(h) + "시간 전"
    case DaysAgo(k) => IntToString(k) + "일 전"
  }

  /** The number in the text is the count the bucket holds. */
  lemma TimeAgoTextCarriesCount(t: TimeAgo)
    ensures var n := match t case MinutesAgo(m) => m case HoursAgo(h) => h case DaysAgo(k) => k;
      ParseInt(TimeAgoText(t)) == Int(n)
  {
    var n := match t case MinutesAgo(m) => m case HoursAgo(h) => h case DaysAgo(k) => k;
    var unit := match t case MinutesAgo(_) => "분 전" case HoursAgo(_) => "시간 전" case DaysAgo(_) => "일 전";
    assert TimeAgoText(t) == IntToString(n) + unit;
    ParseIntStopsAtNonDigit(IntToString(n), unit);
    ParseIntOfIntToString(n);
  }

  /** `parseInt` reads a number up to the first character that is not a digit. */
  lemma ParseIntStopsAtNonDigit(s: string, rest: string)
    requires |s| >= 1 && (AllDigits(s) || (s[0] == '-' && |s| >= 2 && AllDigits(s[1..])))
    requires rest != [] && !IsDigit(rest[0])
    ensures ParseInt(s + rest) == ParseInt(s)
  {
    var t := s + rest;
    assert t[0] == s[0] && !IsJsWhitespace(s[0]);
    assert TrimLeadingWhitespace(t) == t && TrimLeadingWhitespace(s) == s;
    var body := if s[0] == '-' then s[1..] else s;
    assert |body| >= 1 && AllDigits(body);
    assert (if t[0] == '-' || t[0] == '+' then t[1..] else t) == body + rest;
    assert (if s[0] == '-' || s[0] == '+' then s[1..] else s) == body;
    DigitRunOfDigitsThen(body, rest);
    assert DigitRunLength(body) == |body|;
    assert (body + rest)[..|body|] == body == body[..|body|];
  }

  lemma {:induction false} DigitRunOfDigitsThen(body: string, rest: string)
    requires AllDigits(body) && rest != [] && !IsDigit(rest[0])
    ensures DigitRunLength(body + rest) == |body|
  {
    if body != [] {
      assert (body + rest)[1..] == body[1..] + rest;
      DigitRunOfDigitsThen(body[1..], rest);
    } else {
      assert body + rest == rest;
    }
  }

  /** One row of `getStatusInfo`'s table (the icon is left out). */
  datatype StatusInfo = StatusInfo(color: string, bgColor: string, statusLabel: string, description: string)

  function GetStatusInfo(status: string): (info: StatusInfo)
    ensures status !in {"pending", "in-progress", "completed", "cancelled"} ==>
      info == StatusInfo("text-gray-600", "bg-gray-100", "알 수 없음", "상태 불명")
  {
    match status
    case "pending" => StatusInfo("text-yellow-600", "bg-yellow-100", "접수됨", "검토 대기중")
    case "in-progress" => StatusInfo("text-blue-600", "bg-blue-100", "진행중", "작업 진행중")
    case "completed" => StatusInfo("text-green-600", "bg-green-100", "완료됨", "성공적으로 완료")
    case "cancelled" => StatusInfo("text-red-600", "bg-red-100", "취소됨", "주문이 취소됨")
    case _ => StatusInfo("text-gray-600", "bg-gray-100", "알 수 없음", "상태 불명")
  }

  /** Every status gets a label, and the label tells the known statuses apart from
      each other and from the unknown ones. */
  lemma StatusInfoLabelsDistinguish(s1: string, s2: string)
    requires GetStatusInfo(s1).statusLabel == GetStatusInfo(s2).statusLabel
    ensures s1 in {"pending", "in-progress", "completed", "cancelled"} ==> s1 == s2
  {
  }
}
