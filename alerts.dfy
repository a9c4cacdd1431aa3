/** The live alert feed of the alerts page: a most-recent-first buffer that
    every five-second tick extends with a freshly generated alert, keeping
    at most nine of the previous ones, plus the "clear all" button and the
    four stat cards counting alerts by type and priority. */
module Alerts {
  import opened Draws

  datatype AlertType = Buy | Sell | Warning | Info
  datatype Priority = High | Medium | Low

  datatype Alert = Alert(
    id: string,
    alertType: AlertType,
    title: string,
    message: string,
    symbol: string,
    price: real,
    time: string,
    priority: Priority)

  /** The candidates a new alert picks its type and its symbol from. */
  const AlertTypes: seq<AlertType> := [Buy, Sell, Warning, Info]
  const AlertSymbols: seq<string> := ["AAPL", "TSLA", "NVDA", "MSFT", "GOOGL"]

  const NewAlertTitle: string := "تنبيه جديد"
  const NewAlertMessage: string := "حركة سعرية مهمة في السوق"

  /** How many previous alerts a tick keeps, and so the feed's cap. */
  const KeptPrevious: nat := 9
  const Capacity: nat := KeptPrevious + 1

  /** The three alerts the page mounts with. */
  const InitialAlerts: seq<Alert> := [
    Alert("1", Buy, "إشارة شراء قوية", "كسر مستوى المقاومة عند 185.50$ بحجم تداول مرتفع",
          "AAPL", 185.75, "10:32 AM", High),
    Alert("2", Sell, "تحذير بيع", "اقتراب من مستوى الدعم الحرج 200$",
          "TSLA", 201.25, "10:28 AM", High),
    Alert("3", Warning, "تنبيه مخاطرة", "تذبذب عالي متوقع بعد إعلان الأرباح",
          "NVDA", 875.30, "10:15 AM", Medium)
  ]

  /** The priority rule: a first draw above 0.7 makes the alert urgent;
      otherwise a second draw above 0.4 makes it medium, else low. */
  function PriorityOf(highDraw: real, mediumDraw: real): (p: Priority)
    ensures p == High <==> highDraw > 0.7
    ensures p == Medium <==> highDraw <= 0.7 && mediumDraw > 0.4
    ensures p == Low <==> highDraw <= 0.7 && mediumDraw <= 0.4
  {
    if highDraw > 0.7 then High else if mediumDraw > 0.4 then Medium else Low
  }

  /** The alert a tick generates. The id (from the clock) and the time
      (from the locale's time formatter) are opaque inputs. */
  function NewAlert(id: string, time: string, typeDraw: real, symbolDraw: real,
                    priceDraw: real, highDraw: real, mediumDraw: real): (a: Alert)
    requires IsDraw(typeDraw) && IsDraw(symbolDraw) && IsDraw(priceDraw)
    ensures a.alertType in AlertTypes
    ensures a.symbol in AlertSymbols
    ensures 100.0 <= a.price < 1100.0
    ensures a.priority == PriorityOf(highDraw, mediumDraw)
    ensures a.id == id && a.time == time
    ensures a.title == NewAlertTitle && a.message == NewAlertMessage
  {
    Alert(id,
          AlertTypes[ScaledFloor(typeDraw, |AlertTypes|)],
          NewAlertTitle,
          NewAlertMessage,
          AlertSymbols[ScaledFloor(symbolDraw, |AlertSymbols|)],
          priceDraw * 1000.0 + 100.0,
          time,
          PriorityOf(highDraw, mediumDraw))
  }

  /** The tick's updater: the new alert, then the first nine of the previous
      ones (`slice` clamps to the length). */
  function Prepend(prev: seq<Alert>, a: Alert): (r: seq<Alert>)
    ensures |r| == Min(|prev|, KeptPrevious) + 1 && |r| <= Capacity
    ensures r[0] == a
    ensures r[1..] == prev[..Min(|prev|, KeptPrevious)]
    ensures |prev| <= KeptPrevious ==> r == [a] + prev
  {
    [a] + prev[..Min(|prev|, KeptPrevious)]
  }

  /** The first `n` elements, or all of them when there are fewer. */
  function Take<T>(s: seq<T>, n: nat): seq<T> {
    s[..Min(|s|, n)]
  }

  /** The reverse of a sequence, newest (last) element first. */
  function Reversed<T>(s: seq<T>): (r: seq<T>)
    ensures |r| == |s|
    ensures forall i :: 0 <= i < |s| ==> r[i] == s[|s| - 1 - i]
  {
    if s == [] then [] else [s[|s| - 1]] + Reversed(s[..|s| - 1])
  }

  /** The buffer after one tick per alert of `incoming`, oldest first. */
  function Feed(buffer: seq<Alert>, incoming: seq<Alert>): seq<Alert>
  {
    if incoming == [] then buffer
    else Prepend(Feed(buffer, incoming[..|incoming| - 1]), incoming[|incoming| - 1])
  }

  /** Any run of ticks leaves the newest alerts first, then the old buffer,
      cut to the cap: only the oldest entries are ever evicted. */
  lemma {:induction false} FeedKeepsNewest(buffer: seq<Alert>, incoming: seq<Alert>)
    requires |buffer| <= Capacity
    ensures Feed(buffer, incoming) == Take(Reversed(incoming) + buffer, Capacity)
  {
    if incoming != [] {
      var n := |incoming|;
      var older := incoming[..n - 1];
      var x := incoming[n - 1];
      FeedKeepsNewest(buffer, older);
      var before := Reversed(older) + buffer;
      assert Reversed(incoming) == [x] + Reversed(older);
      assert Reversed(incoming) + buffer == [x] + before;
      calc {
        Feed(buffer, incoming);
        Prepend(Take(before, Capacity), x);
        [x] + Take(before, Capacity)[..Min(|Take(before, Capacity)|, KeptPrevious)];
        { assert Take(before, Capacity)[..Min(|Take(before, Capacity)|, KeptPrevious)]
                 == before[..Min(|before|, KeptPrevious)]; }
        [x] + before[..Min(|before|, KeptPrevious)];
        Take([x] + before, Capacity);
      }
    }
  }

  /** Starting from a buffer within the cap, it never holds more than ten. */
  lemma FeedBounded(buffer: seq<Alert>, incoming: seq<Alert>)
    requires |buffer| <= Capacity
    ensures |Feed(buffer, incoming)| == Min(|incoming| + |buffer|, Capacity)
  {
    FeedKeepsNewest(buffer, incoming);
  }

  /** Fifteen ticks from the empty feed: ten alerts, the fifteenth first and
      the sixth last. */
  lemma FifteenTicks(incoming: seq<Alert>)
    requires |incoming| == 15
    ensures |Feed([], incoming)| == 10
    ensures Feed([], incoming)[0] == incoming[14]
    ensures Feed([], incoming)[9] == incoming[5]
  {
    FeedKeepsNewest([], incoming);
    assert Reversed(incoming) + [] == Reversed(incoming);
  }

  /** `alerts.filter(a => a.type === t)` */
  function OfType(alerts: seq<Alert>, t: AlertType): (r: seq<Alert>)
    ensures |r| <= |alerts|
    ensures forall a :: a in r <==> a in alerts && a.alertType == t
  {
    if alerts == [] then []
    else (if alerts[0].alertType == t then [alerts[0]] else []) + OfType(alerts[1..], t)
  }

  /** `alerts.filter(a => a.priority === p)` */
  function OfPriority(alerts: seq<Alert>, p: Priority): (r: seq<Alert>)
    ensures |r| <= |alerts|
    ensures forall a :: a in r <==> a in alerts && a.priority == p
  {
    if alerts == [] then []
    else (if alerts[0].priority == p then [alerts[0]] else []) + OfPriority(alerts[1..], p)
  }

  /** Counting by type is additive over concatenation. */
  lemma {:induction false} OfTypeAppend(s: seq<Alert>, u: seq<Alert>, t: AlertType)
    ensures |OfType(s + u, t)| == |OfType(s, t)| + |OfType(u, t)|
  {
    if s != [] {
      assert (s + u)[1..] == s[1..] + u;
      OfTypeAppend(s[1..], u, t);
    } else {
      assert s + u == u;
    }
  }

  /** Counting by priority is additive over concatenation. */
  lemma {:induction false} OfPriorityAppend(s: seq<Alert>, u: seq<Alert>, p: Priority)
    ensures |OfPriority(s + u, p)| == |OfPriority(s, p)| + |OfPriority(u, p)|
  {
    if s != [] {
      assert (s + u)[1..] == s[1..] + u;
      OfPriorityAppend(s[1..], u, p);
    } else {
      assert s + u == u;
    }
  }

  /** The four type counts partition the feed: every alert has one type. */
  lemma {:induction false} TypeCountsPartition(alerts: seq<Alert>)
    ensures |OfType(alerts, Buy)| + |OfType(alerts, Sell)| + |OfType(alerts, Warning)|
            + |OfType(alerts, Info)| == |alerts|
  {
    if alerts != [] {
      TypeCountsPartition(alerts[1..]);
    }
  }

  /** The three priority counts partition the feed. */
  lemma {:induction false} PriorityCountsPartition(alerts: seq<Alert>)
    ensures |OfPriority(alerts, High)| + |OfPriority(alerts, Medium)|
            + |OfPriority(alerts, Low)| == |alerts|
  {
    if alerts != [] {
      PriorityCountsPartition(alerts[1..]);
    }
  }

  /** What the four stat cards show. */
  datatype AlertStats = AlertStats(buy: nat, sell: nat, warnings: nat, urgent: nat)

  /** Each card is the number of alerts of its type, or of high priority. */
  function Stats(alerts: seq<Alert>): (st: AlertStats)
    ensures st.buy == |OfType(alerts, Buy)| && st.sell == |OfType(alerts, Sell)|
    ensures st.warnings == |OfType(alerts, Warning)| && st.urgent == |OfPriority(alerts, High)|
    ensures st.buy + st.sell + st.warnings <= |alerts|
    ensures st.buy + st.sell + st.warnings == |alerts| - |OfType(alerts, Info)|
    ensures st.urgent <= |alerts|
    ensures alerts == [] ==> st == AlertStats(0, 0, 0, 0)
  {
    TypeCountsPartition(alerts);
    AlertStats(|OfType(alerts, Buy)|, |OfType(alerts, Sell)|,
               |OfType(alerts, Warning)|, |OfPriority(alerts, High)|)
  }

  /** After a tick, each type count is the new alert's share plus the count
      over the nine previous alerts that were kept. */
  lemma TickTypeCount(prev: seq<Alert>, a: Alert, t: AlertType)
    ensures |OfType(Prepend(prev, a), t)|
            == (if a.alertType == t then 1 else 0) + |OfType(prev[..Min(|prev|, KeptPrevious)], t)|
  {
    OfTypeAppend([a], prev[..Min(|prev|, KeptPrevious)], t);
  }

  /** The same for a priority count, so for the urgent card. */
  lemma TickPriorityCount(prev: seq<Alert>, a: Alert, p: Priority)
    ensures |OfPriority(Prepend(prev, a), p)|
            == (if a.priority == p then 1 else 0) + |OfPriority(prev[..Min(|prev|, KeptPrevious)], p)|
  {
    OfPriorityAppend([a], prev[..Min(|prev|, KeptPrevious)], p);
  }

  /** The alerts page's state: the feed, replaced by each tick and by
      "clear all". */
  class AlertsPage {
    var alerts: seq<Alert>

    ghost predicate Valid()
      reads this
    {
      |alerts| <= Capacity
    }

    constructor ()
      ensures Valid() && alerts == InitialAlerts
    {
      alerts := InitialAlerts;
    }

    /** The five-second interval callback, with its random draws injected. */
    method Tick(id: string, time: string, typeDraw: real, symbolDraw: real,
                priceDraw: real, highDraw: real, mediumDraw: real)
      requires Valid()
      requires IsDraw(typeDraw) && IsDraw(symbolDraw) && IsDraw(priceDraw)
      requires IsDraw(highDraw) && IsDraw(mediumDraw)
      modifies this
      ensures Valid()
      ensures alerts == Prepend(old(alerts),
                                NewAlert(id, time, typeDraw, symbolDraw, priceDraw, highDraw, mediumDraw))
      ensures alerts[0].id == id && alerts[0].alertType in AlertTypes && alerts[0].symbol in AlertSymbols
      ensures |alerts| == Min(|old(alerts)|, KeptPrevious) + 1
      ensures alerts[1..] == old(alerts)[..Min(|old(alerts)|, KeptPrevious)]
    {
      var a := NewAlert(id, time, typeDraw, symbolDraw, priceDraw, highDraw, mediumDraw);
      alerts := Prepend(alerts, a);
    }

    /** The "clear all" button. */
    method Clear()
      modifies this
      ensures Valid() && alerts == []
      ensures Stats(alerts) == AlertStats(0, 0, 0, 0)
    {
      alerts := [];
    }
  }
}
