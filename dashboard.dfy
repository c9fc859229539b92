/** The dashboard page: the exchange list filtered by the selected tab, and the row
    of stat cards (total exchanges, points balance, optionally average rating, unread
    messages). Everything here is a pure function of the page's inputs. */
module Dashboard {
  import opened Shared
  import opened Exchanges
  import opened SocketContext

  // ---------------------------------------------------------------- tab filter

  /** The `switch (tabValue)` inside `filteredExchanges`. */
  predicate Keeps(tab: int, st: Status)
  {
    if tab == 1 then st == Pending
    else if tab == 2 then st == Accepted || st == InProgress
    else if tab == 3 then st == Completed
    else true
  }

  /** `filteredExchanges` */
  function FilterTab(exs: seq<Exchange>, tab: int): (r: seq<Exchange>)
    ensures |r| <= |exs|
    ensures forall e :: e in r <==> e in exs && Keeps(tab, e.status)
  {
    if exs == [] then []
    else (if Keeps(tab, exs[0].status) then [exs[0]] else []) + FilterTab(exs[1..], tab)
  }

  /** The filter keeps every admitted exchange as often as the input holds it. */
  lemma {:induction false} FilterTabMultiplicity(exs: seq<Exchange>, tab: int)
    ensures forall e :: multiset(FilterTab(exs, tab))[e] == if Keeps(tab, e.status) then multiset(exs)[e] else 0
  {
    if exs != [] {
      FilterTabMultiplicity(exs[1..], tab);
      assert exs == [exs[0]] + exs[1..];
      var head := if Keeps(tab, exs[0].status) then [exs[0]] else [];
      assert FilterTab(exs, tab) == head + FilterTab(exs[1..], tab);
      assert multiset(FilterTab(exs, tab)) == multiset(head) + multiset(FilterTab(exs[1..], tab));
      assert multiset(exs) == multiset{exs[0]} + multiset(exs[1..]);
    }
  }

  /** a is b with some elements dropped, the rest in their order. */
  ghost predicate SubsequenceOf<T>(a: seq<T>, b: seq<T>)
    decreases |b|
  {
    if a == [] then true
    else if b == [] then false
    else (a[0] == b[0] && SubsequenceOf(a[1..], b[1..])) || SubsequenceOf(a, b[1..])
  }

  /** The filtered list keeps the input's order. */
  lemma {:induction false} FilterIsSubsequence(exs: seq<Exchange>, tab: int)
    ensures SubsequenceOf(FilterTab(exs, tab), exs)
  {
    if exs != [] {
      FilterIsSubsequence(exs[1..], tab);
      var r := FilterTab(exs, tab);
      var rest := FilterTab(exs[1..], tab);
      if Keeps(tab, exs[0].status) {
        assert r == [exs[0]] + rest;
        assert r[0] == exs[0] && r[1..] == rest;
      } else {
        assert r == rest;
      }
    }
  }

  /** Tab 0 and every tab other than 1, 2 and 3 show all exchanges. */
  lemma {:induction false} AllTabKeepsEverything(exs: seq<Exchange>, tab: int)
    requires tab != 1 && tab != 2 && tab != 3
    ensures FilterTab(exs, tab) == exs
  {
    if exs != [] {
      AllTabKeepsEverything(exs[1..], tab);
    }
  }

  function CountStatus(exs: seq<Exchange>, st: Status): nat
  {
    if exs == [] then 0 else (if exs[0].status == st then 1 else 0) + CountStatus(exs[1..], st)
  }

  /** The Pending, Active and Completed tabs together show every exchange that is not
      cancelled, each exactly once. */
  lemma {:induction false} TabsPartition(exs: seq<Exchange>)
    ensures |FilterTab(exs, 1)| + |FilterTab(exs, 2)| + |FilterTab(exs, 3)| + CountStatus(exs, Cancelled) == |exs|
  {
    if exs != [] {
      TabsPartition(exs[1..]);
    }
  }

  // ---------------------------------------------------------------- stat cards

  /** `notifications.filter(n => n.type === 'new_message' && !n.isRead).length` */
  function UnreadMessages(ns: seq<ClientNotification>): (r: nat)
    ensures r <= UnreadCount(ns) <= |ns|
  {
    if ns == [] then 0
    else (if ns[0].kind == "new_message" && !ns[0].isRead then 1 else 0) + UnreadMessages(ns[1..])
  }

  /** The unread-messages stat only ever drops when a notification is marked read. */
  lemma {:induction false} UnreadMessagesAfterMark(ns: seq<ClientNotification>, id: nat, now: string)
    ensures UnreadMessages(MarkAsRead(ns, id, now)) <= UnreadMessages(ns)
  {
    if ns != [] {
      var r := MarkAsRead(ns, id, now);
      assert r[1..] == MarkAsRead(ns[1..], id, now);
      UnreadMessagesAfterMark(ns[1..], id, now);
    }
  }

  /** The signed-in user's fields the cards read; `skillsOffered` is the length of the list. */
  datatype Viewer = Viewer(pointsBalance: real, averageRating: real, skillsOffered: nat)

  datatype StatValue = Number(n: real) | Count(c: nat)

  datatype Stat = Stat(title: string, value: StatValue, color: string)

  /** `baseStats`; a missing user shows 0 points. */
  function BaseStats(user: Option<Viewer>, exs: seq<Exchange>, ns: seq<ClientNotification>): seq<Stat>
  {
    [ Stat("Total Exchanges", Count(|exs|), "primary"),
      Stat("Points Balance", Number(if user.Some? then user.value.pointsBalance else 0.0), "success"),
      Stat("Unread Messages", Count(UnreadMessages(ns)), "info") ]
  }

  function RatingCard(v: Viewer): Stat
  {
    Stat("Average Rating", Number(v.averageRating), "warning")
  }

  predicate OffersSkills(user: Option<Viewer>)
  {
    user.Some? && user.value.skillsOffered > 0
  }

  /** `stats`: the rating card goes third when the user offers skills. */
  function Stats(user: Option<Viewer>, exs: seq<Exchange>, ns: seq<ClientNotification>): (r: seq<Stat>)
    ensures |r| == if OffersSkills(user) then 4 else 3
    ensures r[0].value == Count(|exs|) && r[|r| - 1].value == Count(UnreadMessages(ns))
  {
    var base := BaseStats(user, exs, ns);
    if OffersSkills(user) then base[..2] + [RatingCard(user.value)] + base[2..] else base
  }

  /** The rating card appears, and then at index 2, exactly when the user offers skills;
      the other cards keep their relative order. */
  lemma RatingCardPlacement(user: Option<Viewer>, exs: seq<Exchange>, ns: seq<ClientNotification>)
    ensures var r := Stats(user, exs, ns);
      && ((exists i :: 0 <= i < |r| && r[i].title == "Average Rating") <==> OffersSkills(user))
      && (OffersSkills(user) ==> r[2] == RatingCard(user.value))
      && (forall i :: 0 <= i < 3 ==> BaseStats(user, exs, ns)[i] in r)
  {
    var r := Stats(user, exs, ns);
    var base := BaseStats(user, exs, ns);
    if OffersSkills(user) {
      assert r == base[..2] + [RatingCard(user.value)] + base[2..];
      assert r[0] == base[0] && r[1] == base[1] && r[3] == base[2];
      assert r[2].title == "Average Rating";
    } else {
      assert forall i :: 0 <= i < |r| ==> r[i] == base[i];
    }
  }
}
