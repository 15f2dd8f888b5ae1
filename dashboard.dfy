/** The dashboard reads of lib/actions/dashboard.ts: lead statistics over a
    time window (status counts, a zero-safe conversion rate, a per-day
    histogram built by a loop, a fixed five-entry status breakdown) and the
    most recent leads, both scoped to the caller's client. */
module Dashboard {
  import opened Common
  import opened Types

  const MsPerDay: int := 86_400_000

  /** The card rows a caller may count: those on the caller client's boards
      when the caller is not a super admin and has a client id (none at all
      when the board query returns no data), every card otherwise. */
  function ClientBoardIds(boards: seq<Board>, clientId: Id, boardsQueryFails: bool): (ids: seq<Id>)
    ensures boardsQueryFails ==> ids == []
    ensures !boardsQueryFails ==> forall id :: id in ids <==> exists b :: b in boards && b.clientId == clientId && b.id == id
  {
    if boardsQueryFails then []
    else
      var own := Filter(boards, (b: Board) => b.clientId == clientId);
      var ids := seq(|own|, i requires 0 <= i < |own| => own[i].id);
      assert forall b :: b in own ==> b.id in ids by {
        forall b | b in own ensures b.id in ids {
          var i :| 0 <= i < |own| && own[i] == b;
          assert ids[i] == b.id;
        }
      }
      ids
  }

  function InScope(p: Profile, boards: seq<Board>, boardsQueryFails: bool): Card -> bool
  {
    if p.role != SuperAdmin && Truthy(p.clientId)
    then (c: Card) => c.boardId in ClientBoardIds(boards, p.clientId.value, boardsQueryFails)
    else (c: Card) => true
  }

  /** Scoping keeps exactly the cards on the caller client's boards. */
  lemma InScopeExactly(p: Profile, boards: seq<Board>, c: Card)
    requires p.role != SuperAdmin && Truthy(p.clientId)
    ensures InScope(p, boards, false)(c) <==> exists b :: b in boards && b.clientId == p.clientId.value && b.id == c.boardId
  {
  }

  /** `.gte("created_at", now - days).lte("created_at", now)`. */
  function InWindow(now: Timestamp, days: int): Card -> bool
  {
    (c: Card) => now - days * MsPerDay <= c.createdAt <= now
  }

  /** The rows the statistics are computed over. */
  function WindowCards(p: Profile, cards: seq<Card>, boards: seq<Board>, boardsQueryFails: bool,
                       now: Timestamp, days: int): (w: seq<Card>)
    ensures forall c :: c in w <==> c in cards && InScope(p, boards, boardsQueryFails)(c) && InWindow(now, days)(c)
  {
    var scope := InScope(p, boards, boardsQueryFails);
    var window := InWindow(now, days);
    Filter(cards, (c: Card) => scope(c) && window(c))
  }

  // ---------------------------------------------------------------------
  // Status counts and conversion rate
  // ---------------------------------------------------------------------

  function HasStatus(status: string): Card -> bool
  {
    (c: Card) => c.status == status
  }

  /** The five statuses are exclusive, so their counts add up to at most the
      number of leads (cards with any other status count in none). */
  lemma {:induction false} StatusCountsBounded(cards: seq<Card>)
    ensures Count(cards, HasStatus("new")) + Count(cards, HasStatus("contacted")) + Count(cards, HasStatus("qualified"))
          + Count(cards, HasStatus("converted")) + Count(cards, HasStatus("lost")) <= |cards|
  {
    if cards != [] {
      StatusCountsBounded(cards[1..]);
    }
  }

  /** `totalLeads > 0 ? (convertedLeads / totalLeads) * 100 : 0`, exactly. */
  function ConversionRate(converted: nat, total: nat): (rate: real)
    requires converted <= total
    ensures total == 0 ==> rate == 0.0
    ensures 0.0 <= rate <= 100.0
    ensures total > 0 ==> (rate == 100.0 <==> converted == total)
    ensures total > 0 ==> (rate == 0.0 <==> converted == 0)
  {
    if total > 0 then (converted as real / total as real) * 100.0 else 0.0
  }

  // ---------------------------------------------------------------------
  // Leads per day
  // ---------------------------------------------------------------------

  /** The day a card was created on: days since the epoch, the integer form
      of the UTC date `toISOString().split("T")[0]`. */
  function DayOf(c: Card): int
  {
    c.createdAt / MsPerDay
  }

  function OnDay(d: int): Card -> bool
  {
    (c: Card) => DayOf(c) == d
  }

  function DayCount(cards: seq<Card>, d: int): nat
  {
    Count(cards, OnDay(d))
  }

  /** The days on which some card of `cards` was created. */
  function DaysSeen(cards: seq<Card>): set<int>
  {
    set c | c in cards :: DayOf(c)
  }

  lemma DayCountSnoc(prefix: seq<Card>, last: Card, d: int)
    ensures DayCount(prefix + [last], d) == DayCount(prefix, d) + (if DayOf(last) == d then 1 else 0)
  {
    FilterAppend(prefix, [last], OnDay(d));
  }

  /** A day is counted at least once exactly when a card was created on it. */
  lemma DayCountPositive(cards: seq<Card>, d: int)
    ensures DayCount(cards, d) >= 1 <==> d in DaysSeen(cards)
  {
    if DayCount(cards, d) >= 1 {
      var f := Filter(cards, OnDay(d));
      assert f[0] in f;
    }
    if d in DaysSeen(cards) {
      var c :| c in cards && DayOf(c) == d;
      assert c in Filter(cards, OnDay(d));
    }
  }

  /** `counts[d] = (counts[d] || 0) + 1`. */
  function Bump(counts: map<int, nat>, d: int): map<int, nat>
  {
    counts[d := (if d in counts then counts[d] else 0) + 1]
  }

  /** The dictionary after the `forEach` over `cards`: one key per day seen,
      holding the number of cards created that day. */
  function Histogram(cards: seq<Card>): (h: map<int, nat>)
    ensures h.Keys == DaysSeen(cards)
    ensures forall d :: d in h ==> h[d] == DayCount(cards, d)
    decreases |cards|
  {
    if cards == [] then map[]
    else
      var prefix := cards[..|cards| - 1];
      var last := cards[|cards| - 1];
      assert cards == prefix + [last];
      var h := Histogram(prefix);
      var d := DayOf(last);
      var h' := Bump(h, d);
      assert DaysSeen(cards) == DaysSeen(prefix) + {d};
      forall e | e in h' ensures h'[e] == DayCount(cards, e) {
        DayCountSnoc(prefix, last, e);
        DayCountPositive(prefix, e);
      }
      h'
  }

  /** One more step of the `forEach`. */
  lemma HistogramStep(cards: seq<Card>, i: int)
    requires 0 <= i < |cards|
    ensures Histogram(cards[..i + 1]) == Bump(Histogram(cards[..i]), DayOf(cards[i]))
  {
    assert cards[..i + 1][..i] == cards[..i];
  }

  /** The grouping loop of getDashboardStats. */
  method GroupByDay(cards: seq<Card>) returns (counts: map<int, nat>)
    ensures counts == Histogram(cards)
  {
    counts := map[];
    var i := 0;
    while i < |cards|
      invariant 0 <= i <= |cards|
      invariant counts == Histogram(cards[..i])
    {
      HistogramStep(cards, i);
      counts := Bump(counts, DayOf(cards[i]));
      i := i + 1;
    }
    assert cards[..i] == cards;
  }

  /** An entry of `leadsOverTime`. */
  datatype DayEntry = DayEntry(day: int, count: nat)

  predicate IntLe(a: int, b: int) { a <= b }

  lemma IntLeTotal()
    ensures Total(IntLe)
  {
  }

  lemma {:induction false} SortedIntsInOrder(s: seq<int>)
    requires Sorted(s, IntLe)
    ensures forall i, j :: 0 <= i <= j < |s| ==> s[i] <= s[j]
  {
    if s != [] {
      SortedIntsInOrder(s[1..]);
      forall i, j | 0 <= i <= j < |s| ensures s[i] <= s[j] {
        if 0 < i {
          assert s[i] == s[1..][i - 1] && s[j] == s[1..][j - 1];
        } else if 0 < j {
          assert s[1] == s[1..][0] && s[j] == s[1..][j - 1];
        }
      }
    }
  }

  /** Drops repeated values from an ordered sequence. */
  function Dedup(s: seq<int>): (r: seq<int>)
    requires forall i, j :: 0 <= i <= j < |s| ==> s[i] <= s[j]
    ensures forall i, j :: 0 <= i < j < |r| ==> r[i] < r[j]
    ensures forall x :: x in r <==> x in s
    ensures s != [] ==> r != [] && r[0] == s[0]
  {
    if |s| <= 1 then s
    else
      var rest := Dedup(s[1..]);
      assert forall x :: x in s <==> x == s[0] || x in s[1..];
      if s[0] == s[1] then rest else [s[0]] + rest
  }

  function DayKeys(cards: seq<Card>): (ks: seq<int>)
    ensures |ks| == |cards|
    ensures forall i :: 0 <= i < |cards| ==> ks[i] == DayOf(cards[i])
  {
    seq(|cards|, i requires 0 <= i < |cards| => DayOf(cards[i]))
  }

  /** The distinct days of `cards`, ascending (the `localeCompare` sort of
      ISO dates is the order of the days). */
  function Days(cards: seq<Card>): (ds: seq<int>)
    ensures forall i, j :: 0 <= i < j < |ds| ==> ds[i] < ds[j]
    ensures forall d :: d in ds <==> d in DaysSeen(cards)
  {
    IntLeTotal();
    var keys := DayKeys(cards);
    var sorted := Sort(keys, IntLe);
    SortedIntsInOrder(sorted);
    SameElements(sorted, keys);
    forall d | d in keys ensures d in DaysSeen(cards) {
      var i :| 0 <= i < |cards| && keys[i] == d;
      assert cards[i] in cards;
    }
    forall d | d in DaysSeen(cards) ensures d in keys {
      var c :| c in cards && DayOf(c) == d;
      var i :| 0 <= i < |cards| && cards[i] == c;
      assert keys[i] == d;
    }
    Dedup(sorted)
  }

  function Entries(ds: seq<int>, cards: seq<Card>): (es: seq<DayEntry>)
    ensures |es| == |ds|
    ensures forall i :: 0 <= i < |ds| ==> es[i] == DayEntry(ds[i], DayCount(cards, ds[i]))
  {
    if ds == [] then [] else [DayEntry(ds[0], DayCount(cards, ds[0]))] + Entries(ds[1..], cards)
  }

  function TotalCount(es: seq<DayEntry>): nat
  {
    if es == [] then 0 else es[0].count + TotalCount(es[1..])
  }

  /** `leadsOverTime`: one entry per day on which a card was created, with
      that day's count, ascending by day. */
  function LeadsOverTime(cards: seq<Card>): (es: seq<DayEntry>)
    ensures forall i, j :: 0 <= i < j < |es| ==> es[i].day < es[j].day
    ensures forall i :: 0 <= i < |es| ==> es[i].day in DaysSeen(cards)
    ensures forall d :: d in DaysSeen(cards) ==> exists i :: 0 <= i < |es| && es[i].day == d
    ensures forall i :: 0 <= i < |es| ==> es[i].count == DayCount(cards, es[i].day) && es[i].count >= 1
  {
    var ds := Days(cards);
    var es := Entries(ds, cards);
    forall i | 0 <= i < |es| ensures es[i].count >= 1 {
      assert ds[i] in ds;
      DayCountPositive(cards, ds[i]);
    }
    forall d | d in DaysSeen(cards) ensures exists i :: 0 <= i < |es| && es[i].day == d {
      var i :| 0 <= i < |ds| && ds[i] == d;
      assert es[i].day == d;
    }
    es
  }

  /** Adding a card adds one to the count of its day, and nothing to the
      others. */
  lemma {:induction false} TotalCountSnoc(ds: seq<int>, cards: seq<Card>, c: Card)
    requires Distinct(ds)
    ensures TotalCount(Entries(ds, cards + [c])) == TotalCount(Entries(ds, cards)) + (if DayOf(c) in ds then 1 else 0)
  {
    if ds != [] {
      assert Distinct(ds[1..]) by {
        forall i, j | 0 <= i < j < |ds[1..]| ensures ds[1..][i] != ds[1..][j] {
          assert ds[1..][i] == ds[i + 1] && ds[1..][j] == ds[j + 1];
        }
      }
      TotalCountSnoc(ds[1..], cards, c);
      FilterAppend(cards, [c], OnDay(ds[0]));
      assert Entries(ds, cards + [c])[1..] == Entries(ds[1..], cards + [c]);
      assert Entries(ds, cards)[1..] == Entries(ds[1..], cards);
      assert DayOf(c) in ds <==> DayOf(c) == ds[0] || DayOf(c) in ds[1..];
      if DayOf(c) == ds[0] {
        assert DayOf(c) !in ds[1..] by {
          forall k | 0 <= k < |ds[1..]| ensures ds[1..][k] != DayOf(c) {
            assert ds[1..][k] == ds[k + 1];
          }
        }
      }
    }
  }

  lemma {:induction false} TotalCountNoCards(ds: seq<int>)
    ensures TotalCount(Entries(ds, [])) == 0
  {
    if ds != [] {
      TotalCountNoCards(ds[1..]);
      assert Entries(ds, [])[1..] == Entries(ds[1..], []);
    }
  }

  /** Distinct days covering every card count every card exactly once. */
  lemma {:induction false} TotalCountCovers(ds: seq<int>, cards: seq<Card>)
    requires Distinct(ds)
    requires forall c :: c in cards ==> DayOf(c) in ds
    ensures TotalCount(Entries(ds, cards)) == |cards|
    decreases |cards|
  {
    if cards == [] {
      TotalCountNoCards(ds);
    } else {
      var prefix := cards[..|cards| - 1];
      var last := cards[|cards| - 1];
      assert cards == prefix + [last];
      assert last in cards;
      TotalCountCovers(ds, prefix);
      TotalCountSnoc(ds, prefix, last);
    }
  }

  /** The per-day counts add up to the number of leads. */
  lemma LeadsOverTimeSumsToTotal(cards: seq<Card>)
    ensures TotalCount(LeadsOverTime(cards)) == |cards|
  {
    var ds := Days(cards);
    forall c | c in cards ensures DayOf(c) in ds {
      assert DayOf(c) in DaysSeen(cards);
    }
    assert Distinct(ds);
    TotalCountCovers(ds, cards);
  }

  // ---------------------------------------------------------------------
  // The statistics
  // ---------------------------------------------------------------------

  /** `Object.entries(counts)` taken in the order of `ds`. */
  function EntriesFromCounts(ds: seq<int>, counts: map<int, nat>): (es: seq<DayEntry>)
    requires forall i :: 0 <= i < |ds| ==> ds[i] in counts
    ensures |es| == |ds|
    ensures forall i :: 0 <= i < |ds| ==> es[i] == DayEntry(ds[i], counts[ds[i]])
  {
    seq(|ds|, i requires 0 <= i < |ds| => DayEntry(ds[i], counts[ds[i]]))
  }

  /** An entry of `leadsByStatus`. */
  datatype StatusEntry = StatusEntry(status: string, count: nat)

  datatype DashboardStats = DashboardStats(
    totalLeads: nat,
    newLeads: nat,
    contactedLeads: nat,
    qualifiedLeads: nat,
    convertedLeads: nat,
    lostLeads: nat,
    conversionRate: real,
    leadsOverTime: seq<DayEntry>,
    leadsByStatus: seq<StatusEntry>)

  /** What getDashboardStats answers when the card query returns no data. */
  const NoStats: DashboardStats := DashboardStats(0, 0, 0, 0, 0, 0, 0.0, [], [])

  /** getDashboardStats. `now` is the moment of the call; `boardsQueryFails`
      and `cardsQueryFails` stand for those queries returning no data. */
  method GetDashboardStats(session: Session, cards: seq<Card>, boards: seq<Board>, now: Timestamp, days: int,
                           boardsQueryFails: bool, cardsQueryFails: bool)
    returns (r: Option<DashboardStats>)
    ensures session.user.None? || session.profile.None? <==> r.None?
    ensures r.Some? && cardsQueryFails ==> r.value == NoStats
    ensures r.Some? && !cardsQueryFails ==>
      var w := WindowCards(session.profile.value, cards, boards, boardsQueryFails, now, days);
      var s := r.value;
      && s.totalLeads == |w|
      && s.newLeads == Count(w, HasStatus("new"))
      && s.contactedLeads == Count(w, HasStatus("contacted"))
      && s.qualifiedLeads == Count(w, HasStatus("qualified"))
      && s.convertedLeads == Count(w, HasStatus("converted"))
      && s.lostLeads == Count(w, HasStatus("lost"))
      && s.newLeads + s.contactedLeads + s.qualifiedLeads + s.convertedLeads + s.lostLeads <= s.totalLeads
      && s.conversionRate == ConversionRate(s.convertedLeads, s.totalLeads)
      && s.leadsOverTime == LeadsOverTime(w)
      && s.leadsByStatus == [StatusEntry("New", s.newLeads), StatusEntry("Contacted", s.contactedLeads),
                             StatusEntry("Qualified", s.qualifiedLeads), StatusEntry("Converted", s.convertedLeads),
                             StatusEntry("Lost", s.lostLeads)]
  {
    if session.user.None? || session.profile.None? {
      return None;
    }
    if cardsQueryFails {
      return Some(NoStats);
    }
    var w := WindowCards(session.profile.value, cards, boards, boardsQueryFails, now, days);
    var totalLeads := |w|;
    var newLeads := Count(w, HasStatus("new"));
    var contactedLeads := Count(w, HasStatus("contacted"));
    var qualifiedLeads := Count(w, HasStatus("qualified"));
    var convertedLeads := Count(w, HasStatus("converted"));
    var lostLeads := Count(w, HasStatus("lost"));
    StatusCountsBounded(w);
    var conversionRate := ConversionRate(convertedLeads, totalLeads);
    var counts := GroupByDay(w);
    var leadsOverTime := EntriesFromCounts(Days(w), counts);
    assert leadsOverTime == LeadsOverTime(w);
    var leadsByStatus := [StatusEntry("New", newLeads), StatusEntry("Contacted", contactedLeads),
                          StatusEntry("Qualified", qualifiedLeads), StatusEntry("Converted", convertedLeads),
                          StatusEntry("Lost", lostLeads)];
    r := Some(DashboardStats(totalLeads, newLeads, contactedLeads, qualifiedLeads, convertedLeads, lostLeads,
                             conversionRate, leadsOverTime, leadsByStatus));
  }

  // ---------------------------------------------------------------------
  // Recent leads
  // ---------------------------------------------------------------------

  /** `order("created_at", { ascending: false })` on cards. */
  predicate CardNewerFirst(a: Card, b: Card) { a.createdAt >= b.createdAt }

  lemma CardNewerFirstTotal()
    ensures Total(CardNewerFirst)
  {
  }

  /** getRecentLeads: the first `limit` scoped cards, newest first (the
      datastore filters before it orders and limits). */
  function GetRecentLeads(session: Session, cards: seq<Card>, boards: seq<Board>, limit: nat,
                          boardsQueryFails: bool, cardsQueryFails: bool): (r: seq<Card>)
    ensures session.user.None? || session.profile.None? || cardsQueryFails ==> r == []
    ensures |r| <= limit
    ensures Sorted(r, CardNewerFirst)
    ensures forall c :: c in r ==> c in cards && InScope(session.profile.value, boards, boardsQueryFails)(c)
  {
    if session.user.None? || session.profile.None? || cardsQueryFails then []
    else
      CardNewerFirstTotal();
      var scoped := Filter(cards, InScope(session.profile.value, boards, boardsQueryFails));
      var ordered := Sort(scoped, CardNewerFirst);
      SameElements(ordered, scoped);
      Take(ordered, limit)
  }

  lemma {:induction false} SortedCardsInOrder(s: seq<Card>)
    requires Sorted(s, CardNewerFirst)
    ensures forall i, j :: 0 <= i <= j < |s| ==> s[i].createdAt >= s[j].createdAt
  {
    if s != [] {
      SortedCardsInOrder(s[1..]);
      forall i, j | 0 <= i <= j < |s| ensures s[i].createdAt >= s[j].createdAt {
        if 0 < i {
          assert s[i] == s[1..][i - 1] && s[j] == s[1..][j - 1];
        } else if 0 < j {
          assert s[1] == s[1..][0] && s[j] == s[1..][j - 1];
        }
      }
    }
  }

  /** A scoped card left out of the recent leads is no newer than any card
      that was returned, and fewer than `limit` results means none was left
      out. */
  lemma RecentLeadsAreNewest(session: Session, cards: seq<Card>, boards: seq<Board>, limit: nat, c: Card)
    requires session.user.Some? && session.profile.Some?
    requires c in cards && InScope(session.profile.value, boards, false)(c)
    ensures var r := GetRecentLeads(session, cards, boards, limit, false, false);
      c !in r ==> |r| == limit && forall x :: x in r ==> x.createdAt >= c.createdAt
  {
    var r := GetRecentLeads(session, cards, boards, limit, false, false);
    CardNewerFirstTotal();
    var scoped := Filter(cards, InScope(session.profile.value, boards, false));
    var ordered := Sort(scoped, CardNewerFirst);
    SameElements(ordered, scoped);
    assert r == Take(ordered, limit);
    if c !in r {
      assert c in ordered;
      var j :| 0 <= j < |ordered| && ordered[j] == c;
      assert j >= |r|;
      SortedCardsInOrder(ordered);
      forall x | x in r ensures x.createdAt >= c.createdAt {
        var i :| 0 <= i < |r| && r[i] == x;
        assert ordered[i] == x;
      }
    }
  }
}
