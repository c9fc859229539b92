/** The user routes: the caller's transaction history one page at a time, the
    profile read that recomputes the average rating, the profile update with its
    list of fields a caller may not set, and adding an offered or wanted skill. */
module Users {
  import opened Shared
  import opened Exchanges

  // ---------------------------------------------------------------- transaction pages

  /** `const { page = 1, limit = 50 } = req.query` */
  const DefaultPage: int := 1
  const DefaultLimit: int := 50

  function OrDefault(v: Option<int>, fallback: int): (r: int)
    ensures v.None? ==> r == fallback
    ensures v.Some? ==> r == v.value
  {
    if v.None? then fallback else v.value
  }

  /** The caller's ledger entries, newest first (`database.getUserTransactions`). */
  function HistoryOf(ledger: seq<Transaction>, u: UserId): (r: seq<Transaction>)
    ensures forall t :: t in r <==> t in ledger && t.user == u
    ensures |r| <= |ledger|
  {
    if ledger == [] then []
    else
      var last := ledger[|ledger| - 1];
      (if last.user == u then [last] else []) + HistoryOf(ledger[..|ledger| - 1], u)
  }

  /** SQL `LIMIT limit OFFSET offset`: a negative limit means no limit and a negative
      offset counts as zero. */
  function Window<T>(rows: seq<T>, limit: int, offset: int): (r: seq<T>)
    ensures var start := if offset <= 0 then 0 else offset;
      var avail := if start < |rows| then |rows| - start else 0;
      && |r| == (if 0 <= limit < avail then limit else avail)
      && forall i :: 0 <= i < |r| ==> start + i < |rows| && r[i] == rows[start + i]
  {
    var start := if offset <= 0 then 0 else if offset > |rows| then |rows| else offset;
    var rest := rows[start..];
    if 0 <= limit < |rest| then rest[..limit] else rest
  }

  /** Whole quotient `t / m` rounded down, for a positive divisor. */
  function FloorDiv(t: nat, m: nat): (r: nat)
    requires m > 0
    ensures r * m <= t < (r + 1) * m
    decreases t
  {
    if t < m then 0 else 1 + FloorDiv(t - m, m)
  }

  /** Whole quotient `t / m` rounded up, for a positive divisor. */
  function CeilDiv(t: nat, m: nat): (r: nat)
    requires m > 0
    ensures t == 0 ==> r == 0
    ensures t > 0 ==> (r - 1) * m < t <= r * m
    decreases t
  {
    if t == 0 then 0 else if t <= m then 1 else 1 + CeilDiv(t - m, m)
  }

  /** `Math.ceil(total / limit)`; dividing by zero gives no number. */
  function PageCount(total: nat, limit: int): (r: Option<int>)
    ensures r.None? <==> limit == 0
    ensures limit > 0 ==> r.value >= 0 && (r.value == 0 <==> total == 0)
    ensures limit > 0 && total > 0 ==> (r.value - 1) * limit < total <= r.value * limit
    ensures limit < 0 ==> r.value <= 0 && r.value * limit <= total < (r.value - 1) * limit
  {
    if limit == 0 then None
    else if limit > 0 then Some(CeilDiv(total, limit))
    else
      var q: int := FloorDiv(total, -limit);
      assert (-q) * limit == q * (-limit) && (-q - 1) * limit == (q + 1) * (-limit);
      Some(-q)
  }

  /** `offset = (page - 1) * limit` */
  function Offset(page: int, limit: int): int
  {
    (page - 1) * limit
  }

  datatype Pagination = Pagination(page: int, limit: int, total: nat, pages: Option<int>)

  datatype History = History(transactions: seq<Transaction>, pagination: Pagination)

  /** GET /my-transactions (backend/routes/users.js:32-52). */
  function MyTransactions(ledger: seq<Transaction>, u: UserId, page: Option<int>, limit: Option<int>): (r: History)
    ensures r.pagination.page == OrDefault(page, DefaultPage)
    ensures r.pagination.limit == OrDefault(limit, DefaultLimit)
    ensures r.pagination.total == |HistoryOf(ledger, u)|
    ensures r.pagination.pages == PageCount(|HistoryOf(ledger, u)|, r.pagination.limit)
    ensures r.transactions == Window(HistoryOf(ledger, u), r.pagination.limit,
                                     Offset(r.pagination.page, r.pagination.limit))
    ensures forall t :: t in r.transactions ==> t in ledger && t.user == u
    ensures r.pagination.limit >= 0 ==> |r.transactions| <= r.pagination.limit
    ensures (forall t :: t in ledger ==> t.user != u) ==> r.transactions == [] && r.pagination.total == 0
  {
    var p := OrDefault(page, DefaultPage);
    var l := OrDefault(limit, DefaultLimit);
    var all := HistoryOf(ledger, u);
    if all == [] then
      History([], Pagination(p, l, 0, PageCount(0, l)))
    else
      assert all[0] in all;
      var w := Window(all, l, Offset(p, l));
      assert forall t :: t in w ==> t in all;
      History(w, Pagination(p, l, |all|, PageCount(|all|, l)))
  }

  /** A row at or after the offset and fewer than limit rows past it is in the window. */
  lemma WindowHolds<T>(rows: seq<T>, limit: nat, start: nat, i: nat)
    requires start <= i < |rows| && i < start + limit
    ensures rows[i] in Window(rows, limit, start)
  {
    var w := Window(rows, limit, start);
    assert w[i - start] == rows[i];
  }

  lemma MulMonotone(a: int, b: int, c: nat)
    requires a <= b
    ensures a * c <= b * c
  {
    assert b * c - a * c == (b - a) * c;
  }

  /** With a positive limit, an entry i of the history that lies in page p's offset
      range is shown on page p, and that page is one of the pages the response counts.
      Every i lies in the range of page `FloorDiv(i, limit) + 1` (PageOfEntry). */
  lemma EveryEntryOnSomePage(ledger: seq<Transaction>, u: UserId, limit: nat, p: nat, i: nat)
    requires limit > 0 && i < |HistoryOf(ledger, u)|
    requires p >= 1 && Offset(p, limit) <= i < Offset(p, limit) + limit
    ensures var h := MyTransactions(ledger, u, Some(p), Some(limit));
      && h.pagination.pages.Some? && p <= h.pagination.pages.value
      && HistoryOf(ledger, u)[i] in h.transactions
  {
    var all := HistoryOf(ledger, u);
    PageOffsetNonNegative(p, limit);
    WindowHolds(all, limit, Offset(p, limit), i);
    PageWithinCount(|all|, limit, p, i);
  }

  lemma PageOffsetNonNegative(p: nat, limit: nat)
    requires p >= 1
    ensures Offset(p, limit) >= 0
  {
    MulMonotone(0, p - 1, limit);
  }

  /** Entry i lies in the offset range of page `FloorDiv(i, limit) + 1`. */
  lemma PageOfEntry(limit: nat, i: nat)
    requires limit > 0
    ensures var p := FloorDiv(i, limit) + 1;
      Offset(p, limit) <= i < Offset(p, limit) + limit
  {
  }

  /** A page whose offset lies below the total is within `ceil(total / limit)`. */
  lemma PageWithinCount(total: nat, limit: nat, p: nat, i: nat)
    requires limit > 0 && i < total && p >= 1 && Offset(p, limit) <= i
    ensures p <= CeilDiv(total, limit)
  {
    var pages := CeilDiv(total, limit);
    if pages < p {
      MulMonotone(pages, p - 1, limit);
      assert false;
    }
  }

  // ---------------------------------------------------------------- profile

  /** A field value of a user record. */
  datatype Value = Text(text: string) | Number(n: real)

  type Fields = map<string, Value>

  /** `ratings.length > 0 ? sum / ratings.length : 0` */
  function ProfileAverage(scores: seq<real>): (r: real)
    ensures |scores| == 0 ==> r == 0.0
    ensures |scores| > 0 ==> r * |scores| as real == Sum(scores)
  {
    if |scores| > 0 then Mean(scores) else 0.0
  }

  /** Scores that all lie between 1 and 5 give an average between 1 and 5, or 0 for none. */
  lemma ProfileAverageRange(scores: seq<real>)
    requires forall i :: 0 <= i < |scores| ==> 1.0 <= scores[i] <= 5.0
    ensures ProfileAverage(scores) == 0.0 || 1.0 <= ProfileAverage(scores) <= 5.0
  {
    if |scores| > 0 {
      MeanBounds(scores, 1.0, 5.0);
    }
  }

  datatype ProfileError = UserNotFound | NotAuthorized | MissingSkillFields

  /** The profile reply: the record without its password, and beside it the user's
      offered skills, wanted skills and received ratings. The lists are spread last, so
      they replace any stored field of the same name. */
  datatype Profile = Profile(user: Fields, skillsOffered: seq<SkillRow>, skillsWanted: seq<SkillRow>,
                             ratings: seq<Rating>)

  const ListKeys: set<string> := {"skillsOffered", "skillsWanted", "ratings"}

  /** The profile read: the stored record after the write-back, and the reply. */
  datatype ProfileRead = ProfileRead(reply: Result<Profile, ProfileError>, stored: map<UserId, Fields>, wrote: bool)

  /** `getUserSkillsOffered(id)` and `getUserSkillsWanted(id)`: the user's rows of a skills table. */
  function RowsOf(rows: seq<SkillRow>, u: UserId): (r: seq<SkillRow>)
    ensures forall x :: x in r <==> x in rows && x.user == u
  {
    if rows == [] then []
    else (if rows[0].user == u then [rows[0]] else []) + RowsOf(rows[1..], u)
  }

  /** `getUserRatings(id)`: the ratings the user received. */
  function RatingsFor(rs: seq<Rating>, u: UserId): (r: seq<Rating>)
    ensures forall g :: g in r <==> g in rs && g.ratedUser == u
  {
    if rs == [] then []
    else (if rs[0].ratedUser == u then [rs[0]] else []) + RatingsFor(rs[1..], u)
  }

  /** GET /:id (backend/routes/users.js:105-148): the average of the user's received
      scores is written back only when it differs from the stored one; the reply never
      carries the password and lists the user's skills and ratings. */
  function GetProfile(users: map<UserId, Fields>, id: UserId, offered: seq<SkillRow>,
                      wanted: seq<SkillRow>, ratings: seq<Rating>): (r: ProfileRead)
    ensures id !in users ==> r.reply == Err(UserNotFound) && r.stored == users && !r.wrote
    ensures id in users ==>
              var avg := Number(ProfileAverage(ScoresOf(ratings, id)));
              && r.wrote == !("averageRating" in users[id] && users[id]["averageRating"] == avg)
              && r.stored == (if r.wrote then users[id := users[id]["averageRating" := avg]] else users)
              && r.reply.Ok?
              && "password" !in r.reply.value.user
              && "averageRating" in r.reply.value.user && r.reply.value.user["averageRating"] == avg
              && (forall k :: k in users[id] && k != "password" && k != "averageRating" && k !in ListKeys ==>
                   k in r.reply.value.user && r.reply.value.user[k] == users[id][k])
              && (forall x :: x in r.reply.value.skillsOffered <==> x in offered && x.user == id)
              && (forall x :: x in r.reply.value.skillsWanted <==> x in wanted && x.user == id)
              && (forall g :: g in r.reply.value.ratings <==> g in ratings && g.ratedUser == id)
  {
    if id !in users then ProfileRead(Err(UserNotFound), users, false)
    else
      var avg := Number(ProfileAverage(ScoresOf(ratings, id)));
      var user := users[id];
      var wrote := !("averageRating" in user && user["averageRating"] == avg);
      var user' := if wrote then user["averageRating" := avg] else user;
      var shown := user' - {"password"} - ListKeys;
      ProfileRead(Ok(Profile(shown, RowsOf(offered, id), RowsOf(wanted, id), RatingsFor(ratings, id))),
                  if wrote then users[id := user'] else users, wrote)
  }

  /** Reading a profile twice writes at most once: the first read stores the average
      the second one computes. */
  lemma SecondReadWritesNothing(users: map<UserId, Fields>, id: UserId, offered: seq<SkillRow>,
                                wanted: seq<SkillRow>, ratings: seq<Rating>)
    ensures !GetProfile(GetProfile(users, id, offered, wanted, ratings).stored, id, offered, wanted, ratings).wrote
  {
  }

  /** After a successful rating, the rated user's profile read writes nothing back
      when the record carries the average the rate route stored. */
  lemma RatedProfileNeedsNoWrite(s: Store, actor: UserId, x: ExchangeId, rated: UserId, score: real,
                                 text: string, users: map<UserId, Fields>, offered: seq<SkillRow>,
                                 wanted: seq<SkillRow>)
    requires Consistent(s)
    requires var r := RateStep(s, actor, x, rated, score, text);
      && r.reply.Ok? && rated in users && "averageRating" in users[rated]
      && users[rated]["averageRating"] == Number(r.post.averageRating[rated])
    ensures var r := RateStep(s, actor, x, rated, score, text);
      !GetProfile(users, rated, offered, wanted, r.post.ratings).wrote
  {
  }

  /** The fields PUT /:id removes from the body before writing. */
  const Protected: set<string> := {"id", "userID", "password", "pointsBalance", "averageRating", "createdAt"}

  /** The body without the protected fields. */
  function Stripped(body: Fields): (r: Fields)
    ensures forall k :: k in r <==> k in body && k !in Protected
    ensures forall k :: k in r ==> r[k] == body[k]
  {
    body - Protected
  }

  /** The six `delete updateData.<field>` statements (backend/routes/users.js:175-180). */
  method StripProtected(body: Fields) returns (data: Fields)
    ensures data == Stripped(body)
  {
    data := body;
    data := data - {"id"};
    data := data - {"userID"};
    data := data - {"password"};
    data := data - {"pointsBalance"};
    data := data - {"averageRating"};
    data := data - {"createdAt"};
  }

  datatype ProfileWrite = ProfileWrite(reply: Result<Fields, ProfileError>, stored: map<UserId, Fields>)

  /** PUT /:id (backend/routes/users.js:160-198); `database.updateUser` overwrites the
      given fields of an existing record. */
  function UpdateProfile(users: map<UserId, Fields>, actor: UserId, id: UserId, body: Fields): (r: ProfileWrite)
    ensures actor != id ==> r == ProfileWrite(Err(NotAuthorized), users)
    ensures actor == id && id !in users ==> r == ProfileWrite(Err(UserNotFound), users)
    ensures r.reply.Ok? <==> actor == id && id in users
    ensures r.reply.Ok? ==>
              && r.stored.Keys == users.Keys
              && (forall v :: v in users && v != id ==> r.stored[v] == users[v])
              && (forall k :: k in Protected ==>
                    (k in r.stored[id] <==> k in users[id]) && (k in users[id] ==> r.stored[id][k] == users[id][k]))
              && (forall k :: k in body && k !in Protected ==> k in r.stored[id] && r.stored[id][k] == body[k])
              && "password" !in r.reply.value
  {
    if actor != id then ProfileWrite(Err(NotAuthorized), users)
    else if id !in users then ProfileWrite(Err(UserNotFound), users)
    else
      var data := Stripped(body);
      var user := users[id];
      var updated := map k | k in user.Keys + data.Keys :: if k in data then data[k] else user[k];
      ProfileWrite(Ok(updated - {"password"}), users[id := updated])
  }

  /** However often a caller updates their profile, the protected fields keep their values. */
  lemma {:induction false} UpdatesKeepProtected(users: map<UserId, Fields>, id: UserId, bodies: seq<Fields>, k: string)
    requires k in Protected && id in users
    ensures var after := UpdateAll(users, id, bodies);
      (k in after[id] <==> k in users[id]) && (k in users[id] ==> after[id][k] == users[id][k])
    decreases |bodies|
  {
    if bodies != [] {
      UpdatesKeepProtected(UpdateProfile(users, id, id, bodies[0]).stored, id, bodies[1..], k);
    }
  }

  function UpdateAll(users: map<UserId, Fields>, id: UserId, bodies: seq<Fields>): (r: map<UserId, Fields>)
    ensures id in users ==> id in r
    decreases |bodies|
  {
    if bodies == [] then users else UpdateAll(UpdateProfile(users, id, id, bodies[0]).stored, id, bodies[1..])
  }

  // ---------------------------------------------------------------- skills

  datatype SkillKind = Offered | Wanted

  /** A row of the offered or wanted skills table; `rate` is `hourlyRate` or `maxHourlyRate`. */
  datatype SkillRow = SkillRow(kind: SkillKind, user: UserId, skillId: string, skillLevel: string,
                               rate: real, description: string)

  /** POST /:id/skills/offered and POST /:id/skills/wanted
      (backend/routes/users.js:210-243, 255-288). */
  function AddSkill(kind: SkillKind, actor: UserId, id: UserId, skillId: string, skillLevel: string,
                    rate: Option<real>, description: string): (r: Result<SkillRow, ProfileError>)
    ensures actor != id ==> r == Err(NotAuthorized)
    ensures actor == id && (skillId == "" || skillLevel == "") ==> r == Err(MissingSkillFields)
    ensures r.Ok? <==> actor == id && skillId != "" && skillLevel != ""
    ensures r.Ok? ==>
              && r.value.kind == kind && r.value.user == id
              && r.value.skillId == skillId && r.value.skillLevel == skillLevel
              && r.value.description == description
              && r.value.rate == (if rate.Some? then rate.value else 0.0)
  {
    if actor != id then Err(NotAuthorized)
    else if skillId == "" || skillLevel == "" then Err(MissingSkillFields)
    else Ok(SkillRow(kind, id, skillId, skillLevel, if rate.Some? then rate.value else 0.0, description))
  }

  /** A skill the route accepts is listed, under its kind, by the user's next profile read. */
  lemma AddedSkillShown(kind: SkillKind, actor: UserId, id: UserId, skillId: string, skillLevel: string,
                        rate: Option<real>, description: string, users: map<UserId, Fields>,
                        offered: seq<SkillRow>, wanted: seq<SkillRow>, ratings: seq<Rating>)
    requires id in users
    ensures var a := AddSkill(kind, actor, id, skillId, skillLevel, rate, description);
      a.Ok? ==>
        var p := GetProfile(users, id, if kind == Offered then offered + [a.value] else offered,
                            if kind == Wanted then wanted + [a.value] else wanted, ratings).reply.value;
        a.value in (if kind == Offered then p.skillsOffered else p.skillsWanted)
  {
  }
}
