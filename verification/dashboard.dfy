/**
 * The customer dashboard's church list, held in page memory: adding a
 * church, the four totals, and each church's balance. Amounts are whole
 * numbers; the current date is a parameter.
 */
module Dashboard {
  import opened Lists

  datatype Church = Church(
    id: int,
    name: string,
    address: string,
    churchType: string,
    members: int,
    events: int,
    income: int,
    expenses: int,
    createdAt: string,
    pastorName: string,
    pastorEmail: string)

  /** The add-church form. */
  datatype NewChurch = NewChurch(name: string, address: string, churchType: string, pastorName: string, pastorEmail: string)

  /** The form as the page opens it and as an add leaves it: empty, type `filial`. */
  const BlankForm: NewChurch := NewChurch("", "", "filial", "", "")

  datatype Board = Board(churches: seq<Church>, form: NewChurch)

  /**
   * `handleAddChurch`: append the form's contents as a church with id
   * `length + 1` and no members, events, income or expenses, then reset the form.
   */
  function AddChurch(b: Board, today: string): (r: Board)
    ensures |r.churches| == |b.churches| + 1 && r.churches[..|b.churches|] == b.churches
    ensures var c := r.churches[|b.churches|];
      && c.id == |b.churches| + 1
      && c.members == 0 && c.events == 0 && c.income == 0 && c.expenses == 0
      && c.name == b.form.name && c.address == b.form.address && c.churchType == b.form.churchType
      && c.pastorName == b.form.pastorName && c.pastorEmail == b.form.pastorEmail && c.createdAt == today
    ensures r.form == BlankForm
  {
    var f := b.form;
    var church := Church(|b.churches| + 1, f.name, f.address, f.churchType, 0, 0, 0, 0, today,
                         f.pastorName, f.pastorEmail);
    Board(b.churches + [church], BlankForm)
  }

  function Members(c: Church): int { c.members }
  function Events(c: Church): int { c.events }
  function Income(c: Church): int { c.income }
  function Expenses(c: Church): int { c.expenses }

  datatype Totals = Totals(members: int, events: int, income: int, expenses: int)

  /** `totalMembers`, `totalEvents`, `totalIncome`, `totalExpenses`. */
  function TotalsOf(churches: seq<Church>): (t: Totals)
    ensures churches == [] ==> t == Totals(0, 0, 0, 0)
    ensures t.income - t.expenses == Sum(churches, Balance)
  {
    TotalBalance(churches);
    Totals(Sum(churches, Members), Sum(churches, Events), Sum(churches, Income), Sum(churches, Expenses))
  }

  /** The totals of a list split in two are the sums of the parts' totals. */
  lemma TotalsAppend(xs: seq<Church>, ys: seq<Church>)
    ensures var t, a, b := TotalsOf(xs + ys), TotalsOf(xs), TotalsOf(ys);
      t == Totals(a.members + b.members, a.events + b.events, a.income + b.income, a.expenses + b.expenses)
  {
    SumAppend(xs, ys, Members);
    SumAppend(xs, ys, Events);
    SumAppend(xs, ys, Income);
    SumAppend(xs, ys, Expenses);
  }

  /** One church's totals are its own figures; with `TotalsAppend` this fixes the totals of every list. */
  lemma TotalsOfSingleton(c: Church)
    ensures TotalsOf([c]) == Totals(c.members, c.events, c.income, c.expenses)
  {
    SumSingleton(c, Members);
    SumSingleton(c, Events);
    SumSingleton(c, Income);
    SumSingleton(c, Expenses);
  }

  /** A newly added church changes none of the totals. */
  lemma AddChurchKeepsTotals(b: Board, today: string)
    ensures TotalsOf(AddChurch(b, today).churches) == TotalsOf(b.churches)
  {
    var r := AddChurch(b, today).churches;
    var c := r[|b.churches|];
    assert r == b.churches + [c];
    SumSingleton(c, Members);
    SumSingleton(c, Events);
    SumSingleton(c, Income);
    SumSingleton(c, Expenses);
    TotalsAppend(b.churches, [c]);
  }

  /** The net income over all churches is the sum of their balances. */
  lemma {:induction false} TotalBalance(churches: seq<Church>)
    ensures Sum(churches, Income) - Sum(churches, Expenses) == Sum(churches, Balance)
    decreases |churches|
  {
    if churches != [] {
      TotalBalance(churches[1..]);
    }
  }

  /** A church's balance. */
  function Balance(c: Church): int {
    c.income - c.expenses
  }

  datatype Tone = Surplus | Deficit

  /** The colour the balance is shown in. */
  function BalanceTone(c: Church): (t: Tone)
    ensures t == Surplus <==> c.income >= c.expenses
  {
    if Balance(c) >= 0 then Surplus else Deficit
  }
}
