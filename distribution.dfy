/**
 * The daily distribution run (`process_payout`). The analytics and
 * relational stores become inputs and an in-memory `Store`: the query rows
 * arrive as parameters, and the ledger and the balances are fields that one
 * run updates at once, as the source's transaction does. Decimals are exact
 * reals; the day, its weekday and the budget are parameters.
 */
module Distribution {

  import opened Ids

  datatype Weekday = Mon | Tue | Wed | Thu | Fri | Sat | Sun

  /** A row of a per-project count query (views or downloads). */
  datatype CountRow = CountRow(projectId: ProjectId, count: nat)

  /** A row of the team query: an accepted member of a monetized project. */
  datatype TeamRow = TeamRow(projectId: ProjectId, userId: UserId, split: real)

  datatype Member = Member(userId: UserId, split: real)

  /** A row of the payout ledger (`payouts_values`). */
  datatype PayoutRecord = PayoutRecord(userId: UserId, projectId: ProjectId, amount: real, created: int)

  // Weights

  /** Row `k` is the last row of `rows` for its project. */
  ghost predicate LastFor(rows: seq<CountRow>, k: int)
  {
    && 0 <= k < |rows|
    && forall k' :: k < k' < |rows| ==> rows[k'].projectId != rows[k].projectId
  }

  /** `collect::<HashMap<_, _>>()` over the rows: a later row for the same
      project replaces an earlier one, so each project keeps the count of
      its last row. */
  function ToCountMap(rows: seq<CountRow>): (m: map<ProjectId, nat>)
    ensures m.Keys == set r | r in rows :: r.projectId
    ensures forall k :: LastFor(rows, k) ==> m[rows[k].projectId] == rows[k].count
  {
    if rows == [] then map[]
    else
      var last := rows[|rows| - 1];
      var init := rows[..|rows| - 1];
      var m := ToCountMap(init);
      assert rows == init + [last];
      LastForInit(rows);
      m[last.projectId := last.count]
  }

  /** A last row that is not the final row is also last among the rows
      before the final one, and is not for the final row's project. */
  lemma LastForInit(rows: seq<CountRow>)
    requires rows != []
    ensures forall k :: LastFor(rows, k) && k < |rows| - 1 ==>
      && LastFor(rows[..|rows| - 1], k)
      && rows[k] == rows[..|rows| - 1][k]
      && rows[k].projectId != rows[|rows| - 1].projectId
  {
  }

  /** A project's count, a missing entry counting as 0. */
  function CountOf(m: map<ProjectId, nat>, id: ProjectId): nat
  {
    if id in m then m[id] else 0
  }

  /** The weight of every project seen in either count: views plus
      downloads. */
  function Weights(views: map<ProjectId, nat>, downloads: map<ProjectId, nat>): map<ProjectId, nat>
  {
    map id | id in views.Keys + downloads.Keys :: CountOf(views, id) + CountOf(downloads, id)
  }

  /** The merge loop: every download count is added into the views map,
      an absent entry starting at 0. The source walks a `HashMap`, in no
      particular order; so does this loop. */
  method MergeCounts(views: map<ProjectId, nat>, downloads: map<ProjectId, nat>)
    returns (merged: map<ProjectId, nat>)
    ensures merged == Weights(views, downloads)
  {
    merged := views;
    var remaining := downloads.Keys;
    while remaining != {}
      invariant remaining <= downloads.Keys
      invariant merged.Keys == views.Keys + (downloads.Keys - remaining)
      invariant forall id :: id in merged ==>
        merged[id] == CountOf(views, id) + (if id in remaining then 0 else CountOf(downloads, id))
      decreases remaining
    {
      var key :| key in remaining;
      var counter := if key in merged then merged[key] else 0;
      merged := merged[key := counter + downloads[key]];
      remaining := remaining - {key};
    }
  }

  // Teams

  /** The members of project `id`, in the order their rows arrived. */
  function MembersOf(rows: seq<TeamRow>, id: ProjectId): seq<Member>
  {
    if rows == [] then []
    else
      var last := rows[|rows| - 1];
      MembersOf(rows[..|rows| - 1], id) + (if last.projectId == id then [Member(last.userId, last.split)] else [])
  }

  function Teams(rows: seq<TeamRow>): map<ProjectId, seq<Member>>
  {
    map id | id in (set r | r in rows :: r.projectId) :: MembersOf(rows, id)
  }

  /** The grouping of the team rows into `projects_map`: a row joins the
      list of its project, or starts it. */
  method GroupTeams(rows: seq<TeamRow>) returns (projects: map<ProjectId, seq<Member>>)
    ensures projects == Teams(rows)
    ensures forall id :: id in projects ==> |projects[id]| > 0
  {
    projects := map[];
    for i := 0 to |rows|
      invariant projects == Teams(rows[..i])
      invariant forall id :: id in projects ==> |projects[id]| > 0
    {
      var row := rows[i];
      TeamsStep(rows, i);
      if row.projectId in projects {
        projects := projects[row.projectId := projects[row.projectId] + [Member(row.userId, row.split)]];
      } else {
        projects := projects[row.projectId := [Member(row.userId, row.split)]];
      }
    }
    assert rows[..|rows|] == rows;
  }

  /** One more row joins the list of its project, or starts it. */
  lemma TeamsStep(rows: seq<TeamRow>, i: nat)
    requires i < |rows|
    ensures var t, row := Teams(rows[..i]), rows[i];
      Teams(rows[..i + 1])
      == if row.projectId in t then t[row.projectId := t[row.projectId] + [Member(row.userId, row.split)]]
         else t[row.projectId := [Member(row.userId, row.split)]]
  {
    var t, row := Teams(rows[..i]), rows[i];
    var m := Member(row.userId, row.split);
    var expected := if row.projectId in t then t[row.projectId := t[row.projectId] + [m]] else t[row.projectId := [m]];
    var after := Teams(rows[..i + 1]);
    GroupStep(rows, i);
    assert after.Keys == expected.Keys by {
      assert after.Keys == set r | r in rows[..i + 1] :: r.projectId;
      assert t.Keys == set r | r in rows[..i] :: r.projectId;
      assert expected.Keys == t.Keys + {row.projectId};
    }
    forall id | id in expected ensures after[id] == expected[id] {
      if id == row.projectId && row.projectId !in t {
        MembersOfAbsent(rows[..i]);
        assert MembersOf(rows[..i], id) + [m] == [m];
      }
    }
  }

  /** One more row joins its project's members and its project id. */
  lemma GroupStep(rows: seq<TeamRow>, i: nat)
    requires i < |rows|
    ensures (set r | r in rows[..i + 1] :: r.projectId) == (set r | r in rows[..i] :: r.projectId) + {rows[i].projectId}
    ensures forall id ::
              MembersOf(rows[..i + 1], id)
              == MembersOf(rows[..i], id) + (if rows[i].projectId == id then [Member(rows[i].userId, rows[i].split)] else [])
  {
    assert rows[..i + 1] == rows[..i] + [rows[i]];
    assert rows[..i + 1][..i] == rows[..i];
  }

  /** A project without rows has no members. */
  lemma {:induction false} MembersOfAbsent(rows: seq<TeamRow>)
    ensures forall id :: id !in (set r | r in rows :: r.projectId) ==> MembersOf(rows, id) == []
  {
    if rows != [] {
      var init := rows[..|rows| - 1];
      MembersOfAbsent(init);
      assert rows == init + [rows[|rows| - 1]];
      assert forall r :: r in init ==> r in rows;
    }
  }

  // The budget

  const Days: real := 28.0
  const Weekdays: real := 20.0
  const WeekendBonus: real := 5.0 / 4.0

  /** The budget is spread over 28 days, 8 of them weekend days that get
      5/4 of the weekday amount. */
  function WeekdayAmount(amount: real): real
  {
    amount / (Weekdays + WeekendBonus * (Days - Weekdays))
  }

  function WeekendAmount(amount: real): real
  {
    WeekdayAmount(amount) * WeekendBonus
  }

  function DayAmount(amount: real, day: Weekday): real
  {
    if day == Sat || day == Sun then WeekendAmount(amount) else WeekdayAmount(amount)
  }

  /** The split keeps the budget: twenty weekdays and eight weekend days
      add up to it exactly. */
  lemma BudgetSplit(amount: real)
    ensures WeekendAmount(amount) == 5.0 / 4.0 * WeekdayAmount(amount)
    ensures 20.0 * WeekdayAmount(amount) + 8.0 * WeekendAmount(amount) == amount
    ensures amount >= 0.0 ==> 0.0 <= WeekdayAmount(amount) <= WeekendAmount(amount)
  {
  }

  function Next(day: Weekday): Weekday
  {
    match day
    case Mon => Tue
    case Tue => Wed
    case Wed => Thu
    case Thu => Fri
    case Fri => Sat
    case Sat => Sun
    case Sun => Mon
  }

  function Advance(day: Weekday, n: nat): Weekday
    decreases n
  {
    if n == 0 then day else Advance(Next(day), n - 1)
  }

  /** What `n` consecutive daily runs starting on `start` pay out in all. */
  function PaidOver(amount: real, start: Weekday, n: nat): real
    decreases n
  {
    if n == 0 then 0.0 else DayAmount(amount, start) + PaidOver(amount, Next(start), n - 1)
  }

  lemma {:induction false} PaidOverSplit(amount: real, start: Weekday, m: nat, n: nat)
    ensures PaidOver(amount, start, m + n) == PaidOver(amount, start, m) + PaidOver(amount, Advance(start, m), n)
    decreases m
  {
    if m > 0 {
      PaidOverSplit(amount, Next(start), m - 1, n);
    }
  }

  lemma WeekPays(amount: real, start: Weekday)
    ensures PaidOver(amount, start, 7) == 5.0 * WeekdayAmount(amount) + 2.0 * WeekendAmount(amount)
    ensures Advance(start, 7) == start
  {
    var d1 := Next(start);
    var d2 := Next(d1);
    var d3 := Next(d2);
    var d4 := Next(d3);
    var d5 := Next(d4);
    var d6 := Next(d5);
    assert PaidOver(amount, d6, 1) == DayAmount(amount, d6) + PaidOver(amount, Next(d6), 0);
    assert PaidOver(amount, d5, 2) == DayAmount(amount, d5) + PaidOver(amount, d6, 1);
    assert PaidOver(amount, d4, 3) == DayAmount(amount, d4) + PaidOver(amount, d5, 2);
    assert PaidOver(amount, d3, 4) == DayAmount(amount, d3) + PaidOver(amount, d4, 3);
    assert PaidOver(amount, d2, 5) == DayAmount(amount, d2) + PaidOver(amount, d3, 4);
    assert PaidOver(amount, d1, 6) == DayAmount(amount, d1) + PaidOver(amount, d2, 5);
    assert Advance(start, 7) == Advance(d1, 6) == Advance(d2, 5) == Advance(d3, 4)
        == Advance(d4, 3) == Advance(d5, 2) == Advance(d6, 1) == Next(d6);
    WeekCount(amount, start);
  }

  /** Seven consecutive days hold five weekdays and two weekend days. */
  lemma WeekCount(amount: real, start: Weekday)
    ensures var d1 := Next(start); var d2 := Next(d1); var d3 := Next(d2);
      var d4 := Next(d3); var d5 := Next(d4); var d6 := Next(d5);
      DayAmount(amount, start) + DayAmount(amount, d1) + DayAmount(amount, d2) + DayAmount(amount, d3)
        + DayAmount(amount, d4) + DayAmount(amount, d5) + DayAmount(amount, d6)
      == 5.0 * WeekdayAmount(amount) + 2.0 * WeekendAmount(amount)
  {
    var w, e := WeekdayAmount(amount), WeekendAmount(amount);
    assert DayAmount(amount, Mon) == DayAmount(amount, Tue) == DayAmount(amount, Wed) == DayAmount(amount, Thu)
        == DayAmount(amount, Fri) == w;
    assert DayAmount(amount, Sat) == DayAmount(amount, Sun) == e;
  }

  /** Any 28 consecutive daily runs pay out exactly the budget. */
  lemma FourWeeksPayBudget(amount: real, start: Weekday)
    ensures PaidOver(amount, start, 28) == amount
  {
    WeekPays(amount, start);
    PaidOverSplit(amount, start, 7, 21);
    PaidOverSplit(amount, start, 7, 14);
    PaidOverSplit(amount, start, 7, 7);
    BudgetSplit(amount);
  }

  // One project's payouts

  function SumSplits(members: seq<Member>): real
  {
    if members == [] then 0.0 else SumSplits(members[..|members| - 1]) + members[|members| - 1].split
  }

  /** A project's part of the day, `payout * project_multiplier`: the day's
      amount times the project's weight over the total weight. */
  function ProjectShare(dayAmount: real, weight: nat, total: nat): real
    requires total > 0
  {
    dayAmount * ((weight as real) / (total as real))
  }

  /** A member's payout: the project's share times `split / sum_splits`. */
  function MemberPayout(share: real, split: real, sumSplits: real): real
    requires sumSplits > 0.0
  {
    share * (split / sumSplits)
  }

  /** The ledger rows of one project: one per member, in member order, for
      the members whose payout is positive. */
  function ProjectEntries(id: ProjectId, members: seq<Member>, share: real, sumSplits: real, day: int)
    : seq<PayoutRecord>
    requires sumSplits > 0.0
  {
    if members == [] then []
    else
      var m := members[|members| - 1];
      var payout := MemberPayout(share, m.split, sumSplits);
      ProjectEntries(id, members[..|members| - 1], share, sumSplits, day)
        + (if payout > 0.0 then [PayoutRecord(m.userId, id, payout, day)] else [])
  }

  /** What the run records for project `id`: nothing unless it has a
      weight and its splits add up to more than zero. */
  function Expected(
    id: ProjectId, projects: map<ProjectId, seq<Member>>, weights: map<ProjectId, nat>,
    total: nat, dayAmount: real, day: int): seq<PayoutRecord>
    requires forall p :: p in projects && p in weights ==> total > 0
  {
    if id in projects && id in weights && SumSplits(projects[id]) > 0.0
    then ProjectEntries(id, projects[id], ProjectShare(dayAmount, weights[id], total), SumSplits(projects[id]), day)
    else []
  }

  function SumAmounts(records: seq<PayoutRecord>): real
  {
    if records == [] then 0.0 else SumAmounts(records[..|records| - 1]) + records[|records| - 1].amount
  }

  /** With splits that are not negative, a project's recorded payouts add
      up to its share of the day, `dayAmount * weight / total`. */
  lemma ProjectConservation(id: ProjectId, members: seq<Member>, dayAmount: real, weight: nat, total: nat, day: int)
    requires total > 0 && SumSplits(members) > 0.0 && dayAmount >= 0.0
    requires forall k :: 0 <= k < |members| ==> members[k].split >= 0.0
    ensures SumAmounts(ProjectEntries(id, members, ProjectShare(dayAmount, weight, total), SumSplits(members), day))
         == dayAmount * (weight as real) / (total as real)
  {
    var share := ProjectShare(dayAmount, weight, total);
    var s := SumSplits(members);
    assert share >= 0.0 by {
      MulNonNegative(dayAmount, (weight as real) / (total as real));
    }
    ProjectSumPrefix(id, members, share, s, day);
    DivSelf(share, s);
    MulDivAssoc(dayAmount, weight as real, total as real);
  }

  lemma {:induction false} ProjectSumPrefix(id: ProjectId, members: seq<Member>, share: real, s: real, day: int)
    requires s > 0.0 && share >= 0.0
    requires forall k :: 0 <= k < |members| ==> members[k].split >= 0.0
    ensures SumAmounts(ProjectEntries(id, members, share, s, day)) == share * (SumSplits(members) / s)
  {
    if members == [] {
      assert SumSplits(members) / s == 0.0;
      assert share * (SumSplits(members) / s) == 0.0;
    } else {
      var init := members[..|members| - 1];
      var m := members[|members| - 1];
      ProjectSumPrefix(id, init, share, s, day);
      EntriesSumStep(id, members, share, s, day);
      PayoutStep(share, m.split, s, SumSplits(init), SumSplits(members));
    }
  }

  /** The last member adds its payout to a project's sum when it is positive. */
  lemma EntriesSumStep(id: ProjectId, members: seq<Member>, share: real, s: real, day: int)
    requires s > 0.0 && members != []
    ensures var m := members[|members| - 1];
      && SumSplits(members) == SumSplits(members[..|members| - 1]) + m.split
      && SumAmounts(ProjectEntries(id, members, share, s, day))
         == SumAmounts(ProjectEntries(id, members[..|members| - 1], share, s, day))
            + (if MemberPayout(share, m.split, s) > 0.0 then MemberPayout(share, m.split, s) else 0.0)
  {
    var init := members[..|members| - 1];
    var m := members[|members| - 1];
    var before := ProjectEntries(id, init, share, s, day);
    var payout := MemberPayout(share, m.split, s);
    var added := if payout > 0.0 then [PayoutRecord(m.userId, id, payout, day)] else [];
    assert ProjectEntries(id, members, share, s, day) == before + added;
    SumAmountsAppend(before, added);
  }

  /** Adding one member's payout (kept only when positive) to the running
      sum adds its split to the running split sum. */
  lemma PayoutStep(share: real, split: real, s: real, prefix: real, whole: real)
    requires s > 0.0 && share >= 0.0 && split >= 0.0 && whole == prefix + split
    ensures share * (prefix / s) + (if MemberPayout(share, split, s) > 0.0 then MemberPayout(share, split, s) else 0.0)
         == share * (whole / s)
  {
    MulNonNegative(share, split / s);
    DivAdd(prefix, split, s);
    assert share * ((prefix + split) / s) == share * (prefix / s) + share * (split / s);
  }

  lemma DivSelf(a: real, s: real)
    requires s > 0.0
    ensures a * (s / s) == a
  {
    assert s / s == 1.0;
  }

  lemma MulDivAssoc(a: real, b: real, c: real)
    requires c > 0.0
    ensures a * (b / c) == a * b / c
  {
  }

  lemma MulNonNegative(a: real, b: real)
    requires a >= 0.0 && b >= 0.0
    ensures a * b >= 0.0
  {
  }

  lemma DivAdd(a: real, b: real, s: real)
    requires s > 0.0
    ensures (a + b) / s == a / s + b / s
  {
  }

  lemma {:induction false} SumAmountsAppend(a: seq<PayoutRecord>, b: seq<PayoutRecord>)
    ensures SumAmounts(a + b) == SumAmounts(a) + SumAmounts(b)
  {
    if b == [] {
      assert a + b == a;
    } else {
      var init := b[..|b| - 1];
      assert a + b == (a + init) + [b[|b| - 1]];
      assert (a + b)[..|a + b| - 1] == a + init;
      SumAmountsAppend(a, init);
    }
  }

  /** Two members of a project are paid in the ratio of their splits. */
  lemma PayoutProportionalToSplit(share: real, split1: real, split2: real, sumSplits: real)
    requires sumSplits > 0.0
    ensures MemberPayout(share, split1, sumSplits) * split2 == MemberPayout(share, split2, sumSplits) * split1
  {
    assert share * (split1 / sumSplits) * split2 == share * (split1 * split2) / sumSplits;
    assert share * (split2 / sumSplits) * split1 == share * (split1 * split2) / sumSplits;
  }

  // The ledger rows and the balances of a run

  /** The rows of `records` for project `id`, in order. */
  function ForProject(records: seq<PayoutRecord>, id: ProjectId): seq<PayoutRecord>
  {
    if records == [] then []
    else
      var last := records[|records| - 1];
      ForProject(records[..|records| - 1], id) + (if last.projectId == id then [last] else [])
  }

  lemma {:induction false} ForProjectAppend(a: seq<PayoutRecord>, b: seq<PayoutRecord>, id: ProjectId)
    ensures ForProject(a + b, id) == ForProject(a, id) + ForProject(b, id)
  {
    if b == [] {
      assert a + b == a;
    } else {
      var init := b[..|b| - 1];
      assert a + b == (a + init) + [b[|b| - 1]];
      assert (a + b)[..|a + b| - 1] == a + init;
      ForProjectAppend(a, init, id);
    }
  }

  /** A project's rows all carry its id. */
  lemma {:induction false} ForProjectEntries(
    p: ProjectId, members: seq<Member>, share: real, sumSplits: real, day: int, id: ProjectId)
    requires sumSplits > 0.0
    ensures ForProject(ProjectEntries(p, members, share, sumSplits, day), id)
         == if id == p then ProjectEntries(p, members, share, sumSplits, day) else []
  {
    if members != [] {
      var m := members[|members| - 1];
      var payout := MemberPayout(share, m.split, sumSplits);
      var added := if payout > 0.0 then [PayoutRecord(m.userId, p, payout, day)] else [];
      ForProjectEntries(p, members[..|members| - 1], share, sumSplits, day, id);
      ForProjectAppend(ProjectEntries(p, members[..|members| - 1], share, sumSplits, day), added, id);
      assert ForProject(added, id) == if id == p then added else [] by {
        if added != [] {
          assert added[..0] == [];
        }
      }
    }
  }

  /** The balance updates `UPDATE users SET balance = balance + amount
      WHERE id = user`, one per row in order; a user with no balance row is
      left out, as the update then changes no row. */
  function Credit(balances: map<UserId, real>, records: seq<PayoutRecord>): map<UserId, real>
  {
    if records == [] then balances
    else
      var last := records[|records| - 1];
      var b := Credit(balances, records[..|records| - 1]);
      if last.userId in b then b[last.userId := b[last.userId] + last.amount] else b
  }

  /** The total of the rows paid to `user`. */
  function SumFor(user: UserId, records: seq<PayoutRecord>): real
  {
    if records == [] then 0.0
    else
      var last := records[|records| - 1];
      SumFor(user, records[..|records| - 1]) + (if last.userId == user then last.amount else 0.0)
  }

  /** Each user's balance rises by exactly the sum of that user's rows, and
      no balance appears or disappears. */
  lemma {:induction false} CreditAddsSums(balances: map<UserId, real>, records: seq<PayoutRecord>)
    ensures Credit(balances, records).Keys == balances.Keys
    ensures forall u :: u in balances ==> Credit(balances, records)[u] == balances[u] + SumFor(u, records)
  {
    if records != [] {
      CreditAddsSums(balances, records[..|records| - 1]);
    }
  }

  /** The four insert vectors read as ledger rows. */
  function Rows(userIds: seq<UserId>, projectIds: seq<ProjectId>, amounts: seq<real>, starts: seq<int>)
    : (r: seq<PayoutRecord>)
    requires |userIds| == |projectIds| == |amounts| == |starts|
    ensures |r| == |userIds|
    ensures forall k :: 0 <= k < |r| ==> r[k] == PayoutRecord(userIds[k], projectIds[k], amounts[k], starts[k])
  {
    seq(|userIds|, k requires 0 <= k < |userIds| => PayoutRecord(userIds[k], projectIds[k], amounts[k], starts[k]))
  }

  lemma {:induction false} CreditAppend(balances: map<UserId, real>, a: seq<PayoutRecord>, b: seq<PayoutRecord>)
    ensures Credit(balances, a + b) == Credit(Credit(balances, a), b)
  {
    if b == [] {
      assert a + b == a;
    } else {
      var init := b[..|b| - 1];
      assert a + b == (a + init) + [b[|b| - 1]];
      assert (a + b)[..|a + b| - 1] == a + init;
      CreditAppend(balances, a, init);
    }
  }

  /** The inner loop of the payout loop, over one project's members: each
      positive payout `dayAmount * projectMultiplier * (split / sumSplits)`
      is pushed onto the four insert vectors and added to the member's
      balance. */
  method PayMembers(
    id: ProjectId, members: seq<Member>, dayAmount: real, projectMultiplier: real, sumSplits: real, day: int,
    userIds: seq<UserId>, projectIds: seq<ProjectId>, amounts: seq<real>, starts: seq<int>,
    balances: map<UserId, real>)
    returns (userIds': seq<UserId>, projectIds': seq<ProjectId>, amounts': seq<real>, starts': seq<int>,
             balances': map<UserId, real>)
    requires sumSplits > 0.0
    requires |userIds| == |projectIds| == |amounts| == |starts|
    requires forall k :: 0 <= k < |starts| ==> starts[k] == day
    ensures |userIds'| == |projectIds'| == |amounts'| == |starts'|
    ensures forall k :: 0 <= k < |starts'| ==> starts'[k] == day
    ensures Rows(userIds', projectIds', amounts', starts')
         == Rows(userIds, projectIds, amounts, starts)
            + ProjectEntries(id, members, dayAmount * projectMultiplier, sumSplits, day)
    ensures balances' == Credit(balances, ProjectEntries(id, members, dayAmount * projectMultiplier, sumSplits, day))
  {
    userIds', projectIds', amounts', starts', balances' := userIds, projectIds, amounts, starts, balances;
    ghost var share := dayAmount * projectMultiplier;
    for j := 0 to |members|
      invariant |userIds'| == |projectIds'| == |amounts'| == |starts'|
      invariant forall k :: 0 <= k < |starts'| ==> starts'[k] == day
      invariant Rows(userIds', projectIds', amounts', starts')
             == Rows(userIds, projectIds, amounts, starts) + ProjectEntries(id, members[..j], share, sumSplits, day)
      invariant balances' == Credit(balances, ProjectEntries(id, members[..j], share, sumSplits, day))
    {
      var userId, split := members[j].userId, members[j].split;
      var payout := dayAmount * projectMultiplier * (split / sumSplits);
      assert payout == MemberPayout(share, split, sumSplits);
      EntriesStep(id, members, share, sumSplits, day, j);
      ghost var entries := ProjectEntries(id, members[..j], share, sumSplits, day);
      if payout > 0.0 {
        userIds', projectIds', amounts', starts', balances' :=
          PushPayout(userIds', projectIds', amounts', starts', balances', userId, id, payout, day, balances, entries);
      } else {
        assert entries + [] == entries;
      }
    }
    assert members[..|members|] == members;
  }

  /** One positive payout: the row goes onto the four insert vectors and the
      amount onto the user's balance, when the user has one. */
  method PushPayout(
    userIds: seq<UserId>, projectIds: seq<ProjectId>, amounts: seq<real>, starts: seq<int>,
    balances: map<UserId, real>, userId: UserId, id: ProjectId, payout: real, day: int,
    ghost initial: map<UserId, real>, ghost records: seq<PayoutRecord>)
    returns (userIds': seq<UserId>, projectIds': seq<ProjectId>, amounts': seq<real>, starts': seq<int>,
             balances': map<UserId, real>)
    requires |userIds| == |projectIds| == |amounts| == |starts|
    requires forall k :: 0 <= k < |starts| ==> starts[k] == day
    requires balances == Credit(initial, records)
    ensures |userIds'| == |projectIds'| == |amounts'| == |starts'|
    ensures forall k :: 0 <= k < |starts'| ==> starts'[k] == day
    ensures Rows(userIds', projectIds', amounts', starts')
         == Rows(userIds, projectIds, amounts, starts) + [PayoutRecord(userId, id, payout, day)]
    ensures balances' == Credit(initial, records + [PayoutRecord(userId, id, payout, day)])
  {
    RowsPush(userIds, projectIds, amounts, starts, userId, id, payout, day);
    CreditPush(initial, records, PayoutRecord(userId, id, payout, day));
    userIds', projectIds', amounts', starts' := userIds + [userId], projectIds + [id], amounts + [payout], starts + [day];
    balances' := balances;
    if userId in balances {
      balances' := balances[userId := balances[userId] + payout];
    }
  }

  /** One more member extends a project's rows by that member's positive
      payout, if any. */
  lemma EntriesStep(id: ProjectId, members: seq<Member>, share: real, sumSplits: real, day: int, j: nat)
    requires sumSplits > 0.0 && j < |members|
    ensures var payout := MemberPayout(share, members[j].split, sumSplits);
      ProjectEntries(id, members[..j + 1], share, sumSplits, day)
        == ProjectEntries(id, members[..j], share, sumSplits, day)
           + (if payout > 0.0 then [PayoutRecord(members[j].userId, id, payout, day)] else [])
  {
    assert members[..j + 1][..j] == members[..j];
  }

  lemma RowsPush(
    userIds: seq<UserId>, projectIds: seq<ProjectId>, amounts: seq<real>, starts: seq<int>,
    userId: UserId, id: ProjectId, amount: real, day: int)
    requires |userIds| == |projectIds| == |amounts| == |starts|
    ensures Rows(userIds + [userId], projectIds + [id], amounts + [amount], starts + [day])
         == Rows(userIds, projectIds, amounts, starts) + [PayoutRecord(userId, id, amount, day)]
  {
  }

  lemma CreditPush(balances: map<UserId, real>, records: seq<PayoutRecord>, r: PayoutRecord)
    ensures var b := Credit(balances, records);
      Credit(balances, records + [r]) == if r.userId in b then b[r.userId := b[r.userId] + r.amount] else b
  {
    assert (records + [r])[..|records|] == records;
  }

  /** The payout loop of `process_payout`: for every project (a `HashMap`,
      walked in no particular order) that has a weight and a positive split
      sum, every member's positive payout is pushed onto the four insert
      vectors and added to the member's balance. */
  method DistributeDay(
    projects: map<ProjectId, seq<Member>>, weights: map<ProjectId, nat>, total: nat,
    dayAmount: real, day: int, balances: map<UserId, real>)
    returns (userIds: seq<UserId>, projectIds: seq<ProjectId>, amounts: seq<real>, starts: seq<int>,
             newBalances: map<UserId, real>)
    requires forall p :: p in projects && p in weights ==> total > 0
    ensures |userIds| == |projectIds| == |amounts| == |starts|
    ensures forall k :: 0 <= k < |starts| ==> starts[k] == day
    ensures forall id :: ForProject(Rows(userIds, projectIds, amounts, starts), id)
                      == Expected(id, projects, weights, total, dayAmount, day)
    ensures newBalances == Credit(balances, Rows(userIds, projectIds, amounts, starts))
  {
    userIds, projectIds, amounts, starts := [], [], [], [];
    newBalances := balances;
    var remaining := projects.Keys;
    while remaining != {}
      invariant remaining <= projects.Keys
      invariant |userIds| == |projectIds| == |amounts| == |starts|
      invariant forall k :: 0 <= k < |starts| ==> starts[k] == day
      invariant forall id :: ForProject(Rows(userIds, projectIds, amounts, starts), id)
                          == if id in remaining then [] else Expected(id, projects, weights, total, dayAmount, day)
      invariant newBalances == Credit(balances, Rows(userIds, projectIds, amounts, starts))
      decreases remaining
    {
      var id :| id in remaining;
      ghost var before := Rows(userIds, projectIds, amounts, starts);
      ghost var previous := remaining;
      remaining := remaining - {id};
      userIds, projectIds, amounts, starts, newBalances :=
        PayProject(id, projects, weights, total, dayAmount, day, userIds, projectIds, amounts, starts, newBalances);
      CreditAppend(balances, before, Expected(id, projects, weights, total, dayAmount, day));
      ProjectPaid(before, id, projects, weights, total, dayAmount, day, previous);
    }
  }

  /** The body of the payout loop for project `id`: a project without a
      weight, or whose splits do not add up to more than zero, is skipped;
      otherwise its members are paid. */
  method PayProject(
    id: ProjectId, projects: map<ProjectId, seq<Member>>, weights: map<ProjectId, nat>, total: nat,
    dayAmount: real, day: int,
    userIds: seq<UserId>, projectIds: seq<ProjectId>, amounts: seq<real>, starts: seq<int>,
    balances: map<UserId, real>)
    returns (userIds': seq<UserId>, projectIds': seq<ProjectId>, amounts': seq<real>, starts': seq<int>,
             balances': map<UserId, real>)
    requires forall p :: p in projects && p in weights ==> total > 0
    requires id in projects
    requires |userIds| == |projectIds| == |amounts| == |starts|
    requires forall k :: 0 <= k < |starts| ==> starts[k] == day
    ensures |userIds'| == |projectIds'| == |amounts'| == |starts'|
    ensures forall k :: 0 <= k < |starts'| ==> starts'[k] == day
    ensures Rows(userIds', projectIds', amounts', starts')
         == Rows(userIds, projectIds, amounts, starts) + Expected(id, projects, weights, total, dayAmount, day)
    ensures balances' == Credit(balances, Expected(id, projects, weights, total, dayAmount, day))
  {
    userIds', projectIds', amounts', starts', balances' := userIds, projectIds, amounts, starts, balances;
    var members := projects[id];
    if id in weights {
      var projectMultiplier := (weights[id] as real) / (total as real);
      var sumSplits := SumSplits(members);
      if sumSplits > 0.0 {
        assert dayAmount * projectMultiplier == ProjectShare(dayAmount, weights[id], total);
        userIds', projectIds', amounts', starts', balances' :=
          PayMembers(id, members, dayAmount, projectMultiplier, sumSplits, day,
                     userIds, projectIds, amounts, starts, balances);
        return;
      }
    }
    assert Rows(userIds, projectIds, amounts, starts) + [] == Rows(userIds, projectIds, amounts, starts);
  }

  /** One round of the payout loop: after project `id` is paid its expected
      rows, `id` joins the projects already done. */
  lemma ProjectPaid(
    before: seq<PayoutRecord>, id: ProjectId, projects: map<ProjectId, seq<Member>>, weights: map<ProjectId, nat>,
    total: nat, dayAmount: real, day: int, previous: set<ProjectId>)
    requires forall p :: p in projects && p in weights ==> total > 0
    requires forall x :: ForProject(before, x) == if x in previous then [] else Expected(x, projects, weights, total, dayAmount, day)
    requires id in previous
    ensures forall x :: ForProject(before + Expected(id, projects, weights, total, dayAmount, day), x)
                     == if x in previous - {id} then [] else Expected(x, projects, weights, total, dayAmount, day)
  {
    var entries := Expected(id, projects, weights, total, dayAmount, day);
    forall x
      ensures ForProject(before + entries, x)
           == if x in previous - {id} then [] else Expected(x, projects, weights, total, dayAmount, day)
    {
      ForProjectAppend(before, entries, x);
      if id in projects && id in weights && SumSplits(projects[id]) > 0.0 {
        ForProjectEntries(id, projects[id], ProjectShare(dayAmount, weights[id], total), SumSplits(projects[id]), day, x);
      } else {
        assert ForProject(entries, x) == [];
      }
    }
  }

  /** The ledger table and the users' balances. */
  class Store {
    var ledger: seq<PayoutRecord>
    var balances: map<UserId, real>

    constructor (balances: map<UserId, real>)
      ensures this.ledger == [] && this.balances == balances
    {
      this.ledger := [];
      this.balances := balances;
    }

    /** Whether a ledger row exists for `day`. */
    predicate HasDay(day: int)
      reads this
    {
      exists k :: 0 <= k < |ledger| && ledger[k].created == day
    }

    /** `process_payout` for the day starting at `day`, on a `weekday`, with
        the query results passed in. A day that already has ledger rows is
        left alone. Otherwise the weights and teams are built, the day's
        amount is chosen from the budget, and the rows and balance updates
        of every paid project are applied together. The result lists the
        users whose caches are cleared. */
    method ProcessPayout(
      day: int, weekday: Weekday, budget: nat,
      viewsRows: seq<CountRow>, viewsSum: nat,
      downloadsRows: seq<CountRow>, downloadsSum: nat,
      teamRows: seq<TeamRow>)
      returns (clearCacheUsers: seq<UserId>)
      requires !HasDay(day) ==>
        forall id :: id in Teams(teamRows) && id in Weights(ToCountMap(viewsRows), ToCountMap(downloadsRows))
          ==> viewsSum + downloadsSum > 0
      modifies this
      ensures old(HasDay(day)) ==> ledger == old(ledger) && balances == old(balances) && clearCacheUsers == []
      ensures !old(HasDay(day)) ==>
        && |old(ledger)| <= |ledger|
        && ledger[..|old(ledger)|] == old(ledger)
        && (forall k :: |old(ledger)| <= k < |ledger| ==> ledger[k].created == day)
        && (forall id :: ForProject(ledger[|old(ledger)|..], id)
              == Expected(id, Teams(teamRows), Weights(ToCountMap(viewsRows), ToCountMap(downloadsRows)),
                          viewsSum + downloadsSum, DayAmount(budget as real, weekday), day))
        && balances == Credit(old(balances), ledger[|old(ledger)|..])
        && |clearCacheUsers| == |ledger| - |old(ledger)|
        && (forall k :: 0 <= k < |clearCacheUsers| ==> clearCacheUsers[k] == ledger[|old(ledger)| + k].userId)
        && (|ledger| > |old(ledger)| ==> HasDay(day))
    {
      if HasDay(day) {
        return [];
      }
      var weights := MergeCounts(ToCountMap(viewsRows), ToCountMap(downloadsRows));
      var total := downloadsSum + viewsSum;
      var projects := GroupTeams(teamRows);
      var payout := DayAmount(budget as real, weekday);
      var userIds, projectIds, amounts, starts, newBalances :=
        DistributeDay(projects, weights, total, payout, day, balances);
      ghost var oldLedger := ledger;
      var added := Rows(userIds, projectIds, amounts, starts);
      ledger := ledger + added;
      balances := newBalances;
      clearCacheUsers := userIds;
      assert ledger[..|oldLedger|] == oldLedger && ledger[|oldLedger|..] == added;
      if |added| > 0 {
        assert ledger[|oldLedger|].created == day;
      }
    }
  }
}
