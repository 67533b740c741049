/** A simulation: a run of tax years, each indexed from the one before, in which every
    person in turn, in ascending order of identifier, draws income towards the living
    expenses the persons before them have not yet covered. */
module Simulations {
  import opened Results
  import opened Ledger
  import opened SimConfig
  import opened SimYears
  import opened Indexation
  import opened PersonIds
  import opened Persons

  /** The person-years of one tax year: the persons, in order, with their portfolios and
      opening balances; each draws towards what is still required after those before. */
  function Household(y: SimYear, pfs: seq<Portfolio>, opens: seq<Balances>, required: real)
    : (h: seq<PersonYear>)
    requires |pfs| == |opens|
    ensures |h| == |pfs|
    decreases |pfs|
  {
    if pfs == [] then []
    else
      var py := Waterfall(pfs[0], y, opens[0], required);
      [py] + Household(y, pfs[1..], opens[1..], required - py.Income())
  }

  /** The net income of a sequence of person-years. */
  function SumIncome(h: seq<PersonYear>): real
    decreases |h|
  {
    if h == [] then 0.0 else h[0].Income() + SumIncome(h[1..])
  }

  lemma {:induction false} SumIncomeSnoc(h: seq<PersonYear>, py: PersonYear)
    ensures SumIncome(h + [py]) == SumIncome(h) + py.Income()
    decreases |h|
  {
    if h != [] {
      assert (h + [py])[1..] == h[1..] + [py];
      SumIncomeSnoc(h[1..], py);
    }
  }

  /** Each person draws towards what the household requires less what the persons before
      them have netted. */
  lemma {:induction false} HouseholdAt(y: SimYear, pfs: seq<Portfolio>, opens: seq<Balances>, required: real,
                                       k: nat)
    requires |pfs| == |opens| && k < |pfs|
    ensures var h := Household(y, pfs, opens, required);
            h[k] == Waterfall(pfs[k], y, opens[k], required - SumIncome(h[..k]))
    decreases k
  {
    var h := Household(y, pfs, opens, required);
    if k > 0 {
      var py := Waterfall(pfs[0], y, opens[0], required);
      var rest := Household(y, pfs[1..], opens[1..], required - py.Income());
      assert h == [py] + rest;
      HouseholdAt(y, pfs[1..], opens[1..], required - py.Income(), k - 1);
      assert h[k] == rest[k - 1];
      assert h[..k] == [py] + rest[..k - 1];
      assert SumIncome(h[..k]) == py.Income() + SumIncome(rest[..k - 1]);
    } else {
      assert h[..k] == [];
    }
  }

  /** When the last person covers shortfalls from savings, the household nets what it
      requires unless that person's savings run out. */
  lemma HouseholdMeetsTarget(y: SimYear, pfs: seq<Portfolio>, opens: seq<Balances>, required: real)
    requires |pfs| == |opens| && |pfs| > 0
    requires pfs[|pfs| - 1].savShortfall && opens[|opens| - 1].sav >= 0.0
    ensures var h := Household(y, pfs, opens, required);
            SumIncome(h) >= required || h[|h| - 1].closing.sav == 0.0
  {
    var h := Household(y, pfs, opens, required);
    var n := |pfs| - 1;
    HouseholdAt(y, pfs, opens, required, n);
    IncomeVersusTarget(pfs[n], y, opens[n], required - SumIncome(h[..n]));
    SumIncomeSnoc(h[..n], h[n]);
    assert h[..n] + [h[n]] == h;
  }

  /** The person-year of the k-th person, given what is still required after those before. */
  lemma HouseholdStep(y: SimYear, pfs: seq<Portfolio>, opens: seq<Balances>, total: real, k: nat, required: real)
    requires |pfs| == |opens| && k < |pfs|
    requires required == total - SumIncome(Household(y, pfs, opens, total)[..k])
    ensures Household(y, pfs, opens, total)[k] == Waterfall(pfs[k], y, opens[k], required)
  {
    HouseholdAt(y, pfs, opens, total, k);
  }

  /** What is still required after one more person. */
  lemma RequiredStep(h: seq<PersonYear>, k: nat, total: real, required: real, income: real)
    requires k < |h| && required == total - SumIncome(h[..k]) && income == h[k].Income()
    ensures required - income == total - SumIncome(h[..k + 1])
  {
    SumIncomeSnoc(h[..k], h[k]);
    assert h[..k + 1] == h[..k] + [h[k]];
  }

  /** The ledger entries the person-years of h leave behind, in order. */
  function Records(h: seq<PersonYear>): (r: seq<Entry>)
    ensures |r| == |h|
  {
    if h == [] then [] else Records(h[..|h| - 1]) + [Recorded(EmptyEntry, h[|h| - 1])]
  }

  lemma {:induction false} RecordsAt(h: seq<PersonYear>, k: nat)
    requires k < |h|
    ensures Records(h)[k] == Recorded(EmptyEntry, h[k])
    decreases |h|
  {
    if k < |h| - 1 {
      RecordsAt(h[..|h| - 1], k);
    }
  }

  /** No two identifiers name the same person. */
  predicate Distinct(persons: map<string, SimPerson>)
  {
    forall a, b :: a in persons && b in persons && a != b ==> persons[a] != persons[b]
  }

  /** The persons named by ids, in order. */
  function PersonsOf(persons: map<string, SimPerson>, ids: seq<string>): (ps: seq<SimPerson>)
    requires forall k :: 0 <= k < |ids| ==> ids[k] in persons
    ensures |ps| == |ids| && forall k :: 0 <= k < |ids| ==> ps[k] == persons[ids[k]]
  {
    if ids == [] then [] else PersonsOf(persons, ids[..|ids| - 1]) + [persons[ids[|ids| - 1]]]
  }

  /** Distinct identifiers of distinct persons name distinct objects. */
  lemma PersonsOfDistinct(persons: map<string, SimPerson>, ids: seq<string>)
    requires Distinct(persons)
    requires forall k :: 0 <= k < |ids| ==> ids[k] in persons
    requires forall i, j :: 0 <= i < |ids| && 0 <= j < |ids| && i != j ==> ids[i] != ids[j]
    ensures forall i, j :: 0 <= i < |ids| && 0 <= j < |ids| && i != j ==>
              PersonsOf(persons, ids)[i] != PersonsOf(persons, ids)[j]
  {
  }

  /** The portfolios of the persons named by ids, in order. */
  function PortfoliosOf(persons: map<string, SimPerson>, ids: seq<string>): (pfs: seq<Portfolio>)
    requires forall k :: 0 <= k < |ids| ==> ids[k] in persons
    ensures |pfs| == |ids| && forall k :: 0 <= k < |ids| ==> pfs[k] == persons[ids[k]].portfolio
  {
    if ids == [] then [] else PortfoliosOf(persons, ids[..|ids| - 1]) + [persons[ids[|ids| - 1]].portfolio]
  }

  /** The assets with which the persons named by ids start the simulation, in order. */
  function AssetsOf(persons: map<string, SimPerson>, ids: seq<string>): (opens: seq<Balances>)
    requires forall k :: 0 <= k < |ids| ==> ids[k] in persons
    ensures |opens| == |ids| && forall k :: 0 <= k < |ids| ==> opens[k] == persons[ids[k]].assets
  {
    if ids == [] then [] else AssetsOf(persons, ids[..|ids| - 1]) + [persons[ids[|ids| - 1]].assets]
  }

  /** The balances with which the persons named by ids open year y, in order. */
  function OpeningsOf(y: SimYear, persons: map<string, SimPerson>, ids: seq<string>): (opens: seq<Balances>)
    reads persons.Values
    requires forall k :: 0 <= k < |ids| ==> ids[k] in persons && OpeningReady(y, persons[ids[k]].simyears)
    ensures |opens| == |ids|
    ensures forall k :: 0 <= k < |ids| ==>
              opens[k] == Opening(y, persons[ids[k]].assets, persons[ids[k]].simyears)
  {
    if ids == [] then []
    else
      var p := persons[ids[|ids| - 1]];
      OpeningsOf(y, persons, ids[..|ids| - 1]) + [Opening(y, p.assets, p.simyears)]
  }

  /** The ledgers of the persons ps, in order. */
  function LedgersOf(ps: seq<SimPerson>): (ls: seq<Ledger>)
    reads ps
    ensures |ls| == |ps| && forall k :: 0 <= k < |ps| ==> ls[k] == ps[k].simyears
  {
    if ps == [] then [] else LedgersOf(ps[..|ps| - 1]) + [ps[|ps| - 1].simyears]
  }
  /** The k-th person of a household joins the year with what those before them have
      left required: their income is that of their person-year, and their entry for the
      year is the one that person-year leaves behind. */
  method JoinPerson(person: SimPerson, y: SimYear, required: real, ghost pfs: seq<Portfolio>,
                    ghost opens: seq<Balances>, ghost total: real, ghost k: nat)
    returns (income: real)
    modifies person
    requires |pfs| == |opens| && k < |pfs|
    requires OpeningReady(y, person.simyears)
    requires pfs[k] == person.portfolio && opens[k] == Opening(y, person.assets, person.simyears)
    requires required == total - SumIncome(Household(y, pfs, opens, total)[..k])
    ensures income == Household(y, pfs, opens, total)[k].Income()
    ensures Updated(old(person.simyears), person.simyears, y.year,
                    Records(Household(y, pfs, opens, total))[k])
  {
    HouseholdStep(y, pfs, opens, total, k, required);
    RecordsAt(Household(y, pfs, opens, total), k);
    income := person.JoinYear(y, required);
  }

  /** The persons ps, in order, each start an entry for year y and net what they can of
      the income still required, starting from total; returns what is still required
      after all of them. */
  method JoinInOrder(y: SimYear, ps: seq<SimPerson>, ghost pfs: seq<Portfolio>, ghost opens: seq<Balances>,
                     total: real)
    returns (required: real)
    requires |pfs| == |ps| && |opens| == |ps|
    requires forall i, j :: 0 <= i < |ps| && 0 <= j < |ps| && i != j ==> ps[i] != ps[j]
    requires forall k :: 0 <= k < |ps| ==>
               OpeningReady(y, ps[k].simyears) && pfs[k] == ps[k].portfolio &&
               opens[k] == Opening(y, ps[k].assets, ps[k].simyears)
    modifies ps
    ensures var h := Household(y, pfs, opens, total);
            required == total - SumIncome(h) &&
            forall k :: 0 <= k < |ps| ==> Updated(old(LedgersOf(ps))[k], LedgersOf(ps)[k], y.year, Records(h)[k])
  {
    ghost var h := Household(y, pfs, opens, total);
    ghost var recs := Records(h);
    required := total;
    for k := 0 to |ps|
      invariant required == total - SumIncome(h[..k])
      invariant forall j :: 0 <= j < k ==> Updated(old(ps[j].simyears), ps[j].simyears, y.year, recs[j])
      invariant forall j :: k <= j < |ps| ==> ps[j].simyears == old(ps[j].simyears)
    {
      var income := JoinPerson(ps[k], y, required, pfs, opens, total, k);
      RequiredStep(h, k, total, required, income);
      required := required - income;
    }
    assert h[..|ps|] == h;
  }

  /** The persons of a simulated year, in ascending order of identifier, each start an
      entry for the year and net what they can of the income still required; returns what
      is still required after all of them. Every person's entry for the year ends up
      holding their part of the household's year. */
  method RunPersons(y: SimYear, persons: map<string, SimPerson>) returns (required: real)
    requires Distinct(persons)
    requires forall id :: id in persons ==> OpeningReady(y, persons[id].simyears)
    modifies persons.Values
    ensures var ids := SortedIds(persons.Keys);
            var ps := PersonsOf(persons, ids);
            var h := Household(y, PortfoliosOf(persons, ids), old(OpeningsOf(y, persons, ids)), y.livingExpenses);
            required == y.livingExpenses - SumIncome(h) &&
            forall k :: 0 <= k < |ids| ==>
              Updated(old(LedgersOf(ps))[k], LedgersOf(ps)[k], y.year, Recorded(EmptyEntry, h[k]))
  {
    var ids := SortIds(persons.Keys);
    SortedIdsDistinct(persons.Keys);
    var ps := PersonsOf(persons, ids);
    PersonsOfDistinct(persons, ids);
    ghost var pfs := PortfoliosOf(persons, ids);
    ghost var opens := OpeningsOf(y, persons, ids);
    required := JoinInOrder(y, ps, pfs, opens, y.livingExpenses);
    ghost var h := Household(y, pfs, opens, y.livingExpenses);
    forall j | 0 <= j < |ids|
      ensures Records(h)[j] == Recorded(EmptyEntry, h[j])
    {
      RecordsAt(h, j);
    }
  }

  // ---------------------------------------------------------------- the simulation

  /** The balances a household's person-years close with, in order. */
  function Closings(h: seq<PersonYear>): (c: seq<Balances>)
    ensures |c| == |h| && forall k :: 0 <= k < |h| ==> c[k] == h[k].closing
  {
    if h == [] then [] else Closings(h[..|h| - 1]) + [h[|h| - 1].closing]
  }

  /** The households of the years ys, for persons with portfolios pfs who start with the
      balances assets: the first year opens with the assets, every later one with the
      balances the year before closed with. */
  function Projection(ys: seq<SimYear>, pfs: seq<Portfolio>, assets: seq<Balances>): (p: seq<seq<PersonYear>>)
    requires |assets| == |pfs|
    ensures |p| == |ys| && forall i :: 0 <= i < |ys| ==> |p[i]| == |pfs|
    decreases |ys|
  {
    if ys == [] then []
    else
      var earlier := Projection(ys[..|ys| - 1], pfs, assets);
      var opens := if |ys| == 1 then assets else Closings(earlier[|ys| - 2]);
      earlier + [Household(ys[|ys| - 1], pfs, opens, ys[|ys| - 1].livingExpenses)]
  }

  /** Year i of a projection is the household of year i opening where year i-1 closed. */
  lemma {:induction false} ProjectionAt(ys: seq<SimYear>, pfs: seq<Portfolio>, assets: seq<Balances>, i: nat)
    requires |assets| == |pfs| && i < |ys|
    ensures var p := Projection(ys, pfs, assets);
            p[i] == Household(ys[i], pfs, if i == 0 then assets else Closings(p[i - 1]), ys[i].livingExpenses)
    decreases |ys|
  {
    if i < |ys| - 1 {
      var earlier := Projection(ys[..|ys| - 1], pfs, assets);
      ProjectionAt(ys[..|ys| - 1], pfs, assets, i);
      assert Projection(ys, pfs, assets)[..|ys| - 1] == earlier;
    }
  }

  /** The ledger s0 of the k-th person after i simulated years from first: each year's
      entry set, in turn, to what their person-year in p left behind. */
  function ProjectedLedger(s0: Ledger, first: int, p: seq<seq<PersonYear>>, k: nat, i: nat): Ledger
    requires i <= |p| && forall j :: 0 <= j < |p| ==> k < |p[j]|
    decreases i
  {
    if i == 0 then s0 else ProjectedLedger(s0, first, p, k, i - 1)[first + i - 1 := Recorded(EmptyEntry, p[i - 1][k])]
  }

  /** After i simulated years from first, a person's ledger holds an entry for every year
      it held before and for every year of the run so far; each year of the run holds what
      the person's year in p left behind, and every other year is as it was. */
  lemma {:induction false} ProjectedLedgerSpec(s0: Ledger, first: int, p: seq<seq<PersonYear>>, k: nat, i: nat)
    requires i <= |p| && forall j :: 0 <= j < |p| ==> k < |p[j]|
    ensures var s := ProjectedLedger(s0, first, p, k, i);
            (forall yr :: yr in s <==> yr in s0 || first <= yr < first + i) &&
            (forall j :: 0 <= j < i ==> s[first + j] == Recorded(EmptyEntry, p[j][k])) &&
            (forall yr :: yr in s0 && !(first <= yr < first + i) ==> s[yr] == s0[yr])
    decreases i
  {
    if i > 0 {
      ProjectedLedgerSpec(s0, first, p, k, i - 1);
    }
  }

  /** The ledgers s0 of a household's persons after i simulated years from first. */
  function ProjectedLedgers(s0: seq<Ledger>, first: int, p: seq<seq<PersonYear>>, i: nat): (ls: seq<Ledger>)
    requires i <= |p| && forall j :: 0 <= j < |p| ==> |p[j]| == |s0|
    ensures |ls| == |s0| && forall k :: 0 <= k < |s0| ==> ls[k] == ProjectedLedger(s0[k], first, p, k, i)
  {
    seq(|s0|, k requires 0 <= k < |s0| => ProjectedLedger(s0[k], first, p, k, i))
  }

  /** Recording year first+i, with the household h of that year, in every ledger extends
      every projection by one year. */
  lemma YearStep(s0: seq<Ledger>, before: seq<Ledger>, after: seq<Ledger>, first: int, p: seq<seq<PersonYear>>,
                 i: nat, year: int, h: seq<PersonYear>)
    requires i < |p| && forall j :: 0 <= j < |p| ==> |p[j]| == |s0|
    requires before == ProjectedLedgers(s0, first, p, i) && |after| == |s0|
    requires year == first + i && h == p[i]
    requires forall k :: 0 <= k < |s0| ==> Updated(before[k], after[k], year, Recorded(EmptyEntry, h[k]))
    ensures after == ProjectedLedgers(s0, first, p, i + 1)
  {
    forall k | 0 <= k < |s0|
      ensures after[k] == ProjectedLedger(s0[k], first, p, k, i + 1)
    {
      UpdatedStore(before[k], after[k], first + i, Recorded(EmptyEntry, p[i][k]));
    }
  }

  /** A ledger projected for i years of a run opens year i with the person's assets when
      i is 0, and with the balances year i-1 closed with otherwise. */
  lemma ProjectedOpening(y: SimYear, assets: Balances, s0: Ledger, p: seq<seq<PersonYear>>, k: nat, i: nat)
    requires i <= |p| && forall j :: 0 <= j < |p| ==> k < |p[j]|
    requires y.year == y.first + i
    ensures var s := ProjectedLedger(s0, y.first, p, k, i);
            OpeningReady(y, s) && Opening(y, assets, s) == if i == 0 then assets else p[i - 1][k].closing
  {
    if i > 0 {
      RecordedBalances(EmptyEntry, p[i - 1][k]);
    }
  }



  /** Ledgers projected for the i years of a run before y can all open y, and open it
      where the projection's year i-1 closed (year 0: with the assets). */
  lemma LedgerOpenings(y: SimYear, assets: seq<Balances>, ls: seq<Ledger>, p: seq<seq<PersonYear>>,
                       s0: seq<Ledger>, i: nat)
    requires i < |p| && (forall j :: 0 <= j < |p| ==> |p[j]| == |s0|) && |assets| == |s0|
    requires y.year == y.first + i && ls == ProjectedLedgers(s0, y.first, p, i)
    ensures forall k :: 0 <= k < |s0| ==>
              OpeningReady(y, ls[k]) &&
              Opening(y, assets[k], ls[k]) == (if i == 0 then assets else Closings(p[i - 1]))[k]
  {
    forall k | 0 <= k < |s0|
      ensures OpeningReady(y, ls[k]) &&
              Opening(y, assets[k], ls[k]) == (if i == 0 then assets else Closings(p[i - 1]))[k]
    {
      ProjectedOpening(y, assets[k], s0[k], p, k, i);
    }
  }

  /** The persons named by ids, with ledgers projected for the i years of a run before
      y, can open y, and open it where the projection's year i-1 closed (year 0: with
      their assets). */
  lemma PersonOpenings(y: SimYear, persons: map<string, SimPerson>, ids: seq<string>, ps: seq<SimPerson>,
                       assets: seq<Balances>, p: seq<seq<PersonYear>>, s0: seq<Ledger>, i: nat)
    requires forall k :: 0 <= k < |ids| ==> ids[k] in persons
    requires ps == PersonsOf(persons, ids)
    requires |assets| == |ids| && forall k :: 0 <= k < |ids| ==> assets[k] == ps[k].assets
    requires i < |p| && forall j :: 0 <= j < |p| ==> |p[j]| == |ids|
    requires y.year == y.first + i
    requires |s0| == |ps| && LedgersOf(ps) == ProjectedLedgers(s0, y.first, p, i)
    ensures forall k :: 0 <= k < |ids| ==>
              OpeningReady(y, persons[ids[k]].simyears) &&
              Opening(y, persons[ids[k]].assets, persons[ids[k]].simyears)
                == (if i == 0 then assets else Closings(p[i - 1]))[k]
  {
    var ls := LedgersOf(ps);
    LedgerOpenings(y, assets, ls, p, s0, i);
    forall k | 0 <= k < |ids|
      ensures ls[k] == persons[ids[k]].simyears
    {
    }
  }

  /** What holds for every person named in the sorted identifiers holds for every person. */
  lemma AllReady(y: SimYear, persons: map<string, SimPerson>, ids: seq<string>)
    requires ids == SortedIds(persons.Keys)
    requires forall k :: 0 <= k < |ids| ==> ids[k] in persons && OpeningReady(y, persons[ids[k]].simyears)
    ensures forall id :: id in persons ==> OpeningReady(y, persons[id].simyears)
  {
    forall id | id in persons
      ensures OpeningReady(y, persons[id].simyears)
    {
      SortedIdsSpec(persons.Keys);
      assert id in Elements(ids);
      var k :| 0 <= k < |ids| && ids[k] == id;
    }
  }

  /** Persons whose ledgers are projected for the i years of a run before y can all open
      y, and they open it where the projection's year i-1 closed (year 0: with their
      assets). */
  lemma ProjectedOpenings(y: SimYear, persons: map<string, SimPerson>, ids: seq<string>, ps: seq<SimPerson>,
                          assets: seq<Balances>, p: seq<seq<PersonYear>>, s0: seq<Ledger>, i: nat)
    requires ids == SortedIds(persons.Keys)
    requires forall k :: 0 <= k < |ids| ==> ids[k] in persons
    requires ps == PersonsOf(persons, ids)
    requires |assets| == |ids| && forall k :: 0 <= k < |ids| ==> assets[k] == ps[k].assets
    requires i < |p| && forall j :: 0 <= j < |p| ==> |p[j]| == |ids|
    requires y.year == y.first + i
    requires |s0| == |ps| && LedgersOf(ps) == ProjectedLedgers(s0, y.first, p, i)
    ensures forall id :: id in persons ==> OpeningReady(y, persons[id].simyears)
    ensures OpeningsOf(y, persons, ids) == if i == 0 then assets else Closings(p[i - 1])
  {
    PersonOpenings(y, persons, ids, ps, assets, p, s0, i);
    AllReady(y, persons, ids);
  }

  /** What a run of nYears from startYear works with: the persons' identifiers in
      ascending order, the persons, their portfolios and starting assets in that order, the
      years of the run, and the households of those years. */
  datatype Plan = Plan(ids: seq<string>, ps: seq<SimPerson>, pfs: seq<Portfolio>, assets: seq<Balances>,
                       full: seq<SimYear>, p: seq<seq<PersonYear>>)

  /** The persons of a run: no object under two identifiers, and the plan's identifiers,
      persons, portfolios and starting assets are theirs, in ascending order. */
  ghost predicate Roster(persons: map<string, SimPerson>, pl: Plan)
  {
    Distinct(persons) &&
    pl.ids == SortedIds(persons.Keys) && (forall k :: 0 <= k < |pl.ids| ==> pl.ids[k] in persons) &&
    pl.ps == PersonsOf(persons, pl.ids) && pl.pfs == PortfoliosOf(persons, pl.ids) &&
    pl.assets == AssetsOf(persons, pl.ids)
  }

  ghost predicate Planned(config: Config, startYear: int, nYears: nat, persons: map<string, SimPerson>, pl: Plan)
  {
    ValidRun(startYear, nYears) && Roster(persons, pl) &&
    pl.full == Years(config, startYear, nYears) && Chained(config, startYear, pl.full) &&
    pl.p == Projection(pl.full, pl.pfs, pl.assets)
  }

  lemma MakePlan(config: Config, startYear: int, nYears: nat, persons: map<string, SimPerson>) returns (pl: Plan)
    requires ValidRun(startYear, nYears) && Distinct(persons)
    ensures Planned(config, startYear, nYears, persons, pl)
  {
    var ids := SortedIds(persons.Keys);
    SortedIdsDistinct(persons.Keys);
    var full := Years(config, startYear, nYears);
    YearsChained(config, startYear, nYears);
    var pfs := PortfoliosOf(persons, ids);
    var assets := AssetsOf(persons, ids);
    pl := Plan(ids, PersonsOf(persons, ids), pfs, assets, full, Projection(full, pfs, assets));
  }

  /** What year i of a plan is: the year built from year i-1 (year 0 from nothing), and
      the household that opens it where year i-1 closed (year 0: with the assets). */
  ghost predicate YearPlanned(config: Config, startYear: int, pl: Plan, i: nat)
  {
    i < |pl.full| && |pl.p| == |pl.full| && |pl.assets| == |pl.pfs| &&
    (forall j :: 0 <= j < |pl.p| ==> |pl.p[j]| == |pl.pfs|) &&
    CanIndex(startYear, startYear + i, if i == 0 then None else Some(pl.full[i - 1])) &&
    pl.full[i] == IndexedYear(config, startYear, startYear + i, if i == 0 then None else Some(pl.full[i - 1])) &&
    pl.p[i] == Household(pl.full[i], pl.pfs, if i == 0 then pl.assets else Closings(pl.p[i - 1]),
                         pl.full[i].livingExpenses)
  }

  /** Every year of a planned run is the year built from the one before, with the
      household that opens where the year before closed. */
  lemma PlanYear(config: Config, startYear: int, nYears: nat, persons: map<string, SimPerson>, pl: Plan, i: nat)
    requires Planned(config, startYear, nYears, persons, pl) && i < nYears
    ensures YearPlanned(config, startYear, pl, i)
  {
    assert Linked(config, startYear, pl.full, i);
    ProjectionAt(pl.full, pl.pfs, pl.assets, i);
  }

  /** The persons of a run, in ascending order of identifier, net the income year i of the
      run requires; every person's ledger, projected for the years before it, is then
      projected for it too. */
  method SimulateYear(y: SimYear, persons: map<string, SimPerson>, ghost pl: Plan, ghost s0: seq<Ledger>,
                      ghost i: nat)
    requires Roster(persons, pl)
    requires i < |pl.p| && |pl.assets| == |pl.pfs| && (forall j :: 0 <= j < |pl.p| ==> |pl.p[j]| == |pl.pfs|)
    requires y.year == y.first + i
    requires pl.p[i] == Household(y, pl.pfs, if i == 0 then pl.assets else Closings(pl.p[i - 1]), y.livingExpenses)
    requires |s0| == |pl.ps| && LedgersOf(pl.ps) == ProjectedLedgers(s0, y.first, pl.p, i)
    modifies persons.Values
    ensures LedgersOf(pl.ps) == ProjectedLedgers(s0, y.first, pl.p, i + 1)
  {
    ghost var before := LedgersOf(pl.ps);
    ProjectedOpenings(y, persons, pl.ids, pl.ps, pl.assets, pl.p, s0, i);
    var _ := RunPersons(y, persons);
    ghost var after := LedgersOf(pl.ps);
    YearStep(s0, before, after, y.first, pl.p, i, y.year, pl.p[i]);
  }

  /** Builds the year after the years ys of a run from the configuration and the year
      before it, then lets the persons, in ascending order of identifier, net the income
      it requires. The year is the next year of the run, and every person's ledger,
      projected for the years before it, is projected for it too. */
  method NewSimYear(config: Config, startYear: int, ys: seq<SimYear>, persons: map<string, SimPerson>,
                    ghost pl: Plan, ghost s0: seq<Ledger>)
    returns (y: SimYear)
    requires Roster(persons, pl) && YearPlanned(config, startYear, pl, |ys|) && ys == pl.full[..|ys|]
    requires |s0| == |pl.ps| && LedgersOf(pl.ps) == ProjectedLedgers(s0, startYear, pl.p, |ys|)
    modifies persons.Values
    ensures ys + [y] == pl.full[..|ys| + 1]
    ensures LedgersOf(pl.ps) == ProjectedLedgers(s0, startYear, pl.p, |ys| + 1)
  {
    var i := |ys|;
    var prev := if i == 0 then None else Some(ys[i - 1]);
    assert i > 0 ==> ys[i - 1] == pl.full[i - 1];
    y := IndexedYear(config, startYear, startYear + i, prev);
    assert pl.full[..i + 1] == ys + [y];
    SimulateYear(y, persons, pl, s0, i);
  }

  /** Builds the nYears years of a run from startYear in turn, each from the one before;
      in each year the persons, in ascending order of identifier, net the income the year
      requires. Every person's ledger ends up holding, for each year of the run, the entry
      their person-year of the projection leaves behind. */
  method RunYears(config: Config, startYear: int, nYears: nat, persons: map<string, SimPerson>)
    returns (ys: seq<SimYear>)
    requires ValidRun(startYear, nYears) && Distinct(persons)
    modifies persons.Values
    ensures ys == Years(config, startYear, nYears)
    ensures var ids := SortedIds(persons.Keys);
            var ps := PersonsOf(persons, ids);
            LedgersOf(ps) ==
              ProjectedLedgers(old(LedgersOf(ps)), startYear,
                               Projection(ys, PortfoliosOf(persons, ids), AssetsOf(persons, ids)), nYears)
  {
    ghost var pl := MakePlan(config, startYear, nYears, persons);
    ghost var s0 := LedgersOf(pl.ps);
    ys := [];
    for i := 0 to nYears
      invariant ys == pl.full[..i]
      invariant LedgersOf(pl.ps) == ProjectedLedgers(s0, startYear, pl.p, i)
    {
      PlanYear(config, startYear, nYears, persons, pl, i);
      var y := NewSimYear(config, startYear, ys, persons, pl, s0);
      ys := ys + [y];
    }
    assert ys == pl.full;
  }

  /** A simulation: a run of nYears tax years from startYear for the persons, indexed
      with the configuration. */
  class Simulation {
    const startYear: int
    const nYears: nat
    const persons: map<string, SimPerson>
    const config: Config
    var years: seq<SimYear>

    /** The run is possible and its years are the indexed years from startYear. */
    ghost predicate Valid()
      reads this
    {
      ValidRun(startYear, nYears) && years == Years(config, startYear, nYears)
    }

    /** Builds every year of the run in turn, each from the one before; in each year the
        persons, in ascending order of identifier, net the income the year requires. Every
        person's ledger ends up holding, for each year of the run, the entry their
        person-year of the projection leaves behind. */
    constructor(startYear: int, nYears: nat, persons: map<string, SimPerson>, config: Config)
      requires ValidRun(startYear, nYears) && Distinct(persons)
      modifies persons.Values
      ensures this.startYear == startYear && this.nYears == nYears
      ensures this.persons == persons && this.config == config
      ensures Valid()
      ensures var ids := SortedIds(persons.Keys);
              var ps := PersonsOf(persons, ids);
              LedgersOf(ps) ==
                ProjectedLedgers(old(LedgersOf(ps)), startYear,
                                 Projection(years, PortfoliosOf(persons, ids), AssetsOf(persons, ids)), nYears)
    {
      this.startYear := startYear;
      this.nYears := nYears;
      this.persons := persons;
      this.config := config;
      var ys := RunYears(config, startYear, nYears, persons);
      years := ys;
    }

    /** The first year of the run. */
    function FirstYear(): int
      reads this
    {
      startYear
    }

    /** The last year of the run. */
    function LastYear(): int
      reads this
    {
      startYear + nYears - 1
    }

    /** The year of the run with the given number, or None outside the run. */
    function YearData(year: int): (r: Option<SimYear>)
      reads this
      requires Valid()
      ensures r.None? <==> year < FirstYear() || year > LastYear()
      ensures r.Some? ==> r.value.year == year && r.value == years[year - FirstYear()]
    {
      if year < FirstYear() || year > LastYear() then None else Some(years[year - FirstYear()])
    }

    /** Every year of the run is built from the year the simulation reports before it,
        and the first year from nothing, since there is no year before the run. */
    lemma YearDataLinked(year: int)
      requires Valid() && FirstYear() <= year <= LastYear()
      ensures CanIndex(startYear, year, YearData(year - 1))
      ensures YearData(year) == Some(IndexedYear(config, startYear, year, YearData(year - 1)))
    {
      YearsChained(config, startYear, nYears);
      assert Linked(config, startYear, years, year - startYear);
    }
  }
}
