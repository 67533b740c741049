/** The vocabulary of a person's per-year ledger: the keys a simulated year records and
    the four asset balances that are carried from one year to the next. */
module Ledger {
  import opened Results

  /** One key of a ledger year. The asset balances are aPn (pension), aISA, aTrd
      (trading account) and aSav (savings); the rest record the year's income. */
  datatype Field =
    | APn | AISA | ATrd | ASav
    | PensSP | PensDB | PensDC | PensDCDD | PensDCSpTU
    | IISA | ITrd | ISav
    | Taxable | Tax | Taxfree | Income

  /** The fields the year-end growth step visits, in its order. */
  const AssetFields: seq<Field> := [APn, AISA, ATrd, ASav]

  /** What a person records for one year: the value last written under each key, or
      None where nothing has been written yet. */
  datatype Entry = Entry(
    aPn: Option<real>, aISA: Option<real>, aTrd: Option<real>, aSav: Option<real>,
    pensSP: Option<real>, pensDB: Option<real>, pensDC: Option<real>,
    pensDCDD: Option<real>, pensDCSpTU: Option<real>,
    iISA: Option<real>, iTrd: Option<real>, iSav: Option<real>,
    taxable: Option<real>, tax: Option<real>, taxfree: Option<real>, income: Option<real>)

  /** The entry of a year nothing has been written to. */
  const EmptyEntry: Entry :=
    Entry(None, None, None, None, None, None, None, None, None, None, None, None, None, None, None, None)

  /** The value recorded under a key. */
  function Get(e: Entry, f: Field): Option<real>
  {
    match f
    case APn => e.aPn
    case AISA => e.aISA
    case ATrd => e.aTrd
    case ASav => e.aSav
    case PensSP => e.pensSP
    case PensDB => e.pensDB
    case PensDC => e.pensDC
    case PensDCDD => e.pensDCDD
    case PensDCSpTU => e.pensDCSpTU
    case IISA => e.iISA
    case ITrd => e.iTrd
    case ISav => e.iSav
    case Taxable => e.taxable
    case Tax => e.tax
    case Taxfree => e.taxfree
    case Income => e.income
  }

  /** e with value written under key f. */
  function Set(e: Entry, f: Field, value: real): (r: Entry)
    ensures Get(r, f) == Some(value)
  {
    match f
    case APn => e.(aPn := Some(value))
    case AISA => e.(aISA := Some(value))
    case ATrd => e.(aTrd := Some(value))
    case ASav => e.(aSav := Some(value))
    case PensSP => e.(pensSP := Some(value))
    case PensDB => e.(pensDB := Some(value))
    case PensDC => e.(pensDC := Some(value))
    case PensDCDD => e.(pensDCDD := Some(value))
    case PensDCSpTU => e.(pensDCSpTU := Some(value))
    case IISA => e.(iISA := Some(value))
    case ITrd => e.(iTrd := Some(value))
    case ISav => e.(iSav := Some(value))
    case Taxable => e.(taxable := Some(value))
    case Tax => e.(tax := Some(value))
    case Taxfree => e.(taxfree := Some(value))
    case Income => e.(income := Some(value))
  }

  /** Writing one key leaves every other key as it was. */
  lemma SetOthers(e: Entry, f: Field, g: Field, value: real)
    requires f != g
    ensures Get(Set(e, f, value), g) == Get(e, g)
  {
  }

  /** A person's ledger: tax year -> entry. */
  type Ledger = map<int, Entry>

  /** The four balances of a person at one moment. */
  datatype Balances = Balances(pens: real, isa: real, trd: real, sav: real)

  predicate HasBalances(e: Entry)
  {
    e.aPn.Some? && e.aISA.Some? && e.aTrd.Some? && e.aSav.Some?
  }

  /** The balances recorded in an entry. */
  function BalancesOf(e: Entry): (b: Balances)
    requires HasBalances(e)
    ensures Get(e, APn) == Some(b.pens) && Get(e, AISA) == Some(b.isa)
    ensures Get(e, ATrd) == Some(b.trd) && Get(e, ASav) == Some(b.sav)
  {
    Balances(e.aPn.value, e.aISA.value, e.aTrd.value, e.aSav.value)
  }
}
