/**
 * The two constant category tables of src/utils/categories.ts and the
 * colour and icon lookups over them: the table is chosen by the
 * transaction type and searched for the first entry with exactly that name.
 */
module CategoryTables {
  import opened Wrappers
  import opened Transactions

  datatype CategoryStyle = CategoryStyle(name: string, color: string, icon: string)

  const DefaultColor: string := "#6b7280"
  const DefaultIcon: string := "📝"

  const ExpenseCategories: seq<CategoryStyle> := [
    CategoryStyle("Alimentación", "#ef4444", "🍽️"),
    CategoryStyle("Transporte", "#f97316", "🚗"),
    CategoryStyle("Vivienda", "#eab308", "🏠"),
    CategoryStyle("Servicios", "#22c55e", "💡"),
    CategoryStyle("Salud", "#06b6d4", "🏥"),
    CategoryStyle("Entretenimiento", "#8b5cf6", "🎬"),
    CategoryStyle("Ropa", "#ec4899", "👕"),
    CategoryStyle("Educación", "#10b981", "📚"),
    CategoryStyle("Tarjetas de Crédito", "#dc2626", "💳"),
    CategoryStyle("Otros Gastos", "#6b7280", "📝")
  ]

  const IncomeCategories: seq<CategoryStyle> := [
    CategoryStyle("Salario", "#059669", "💼"),
    CategoryStyle("Freelance", "#0d9488", "💻"),
    CategoryStyle("Inversiones", "#7c3aed", "📈"),
    CategoryStyle("Negocios", "#dc2626", "🏪"),
    CategoryStyle("Alquiler", "#ea580c", "🏘️"),
    CategoryStyle("Otros Ingresos", "#6b7280", "💰")
  ]

  /** `type === 'expense' ? EXPENSE_CATEGORIES : INCOME_CATEGORIES`. */
  function TableFor(t: TxType): (r: seq<CategoryStyle>)
    ensures forall i, j :: 0 <= i < j < |r| ==> r[i].name != r[j].name
    ensures forall i :: 0 <= i < |r| ==> r[i].color != ""
  {
    if t == Expense then ExpenseCategories else IncomeCategories
  }

  /** `categories.find(cat => cat.name === name)`. */
  function Find(table: seq<CategoryStyle>, name: string): (r: Option<CategoryStyle>)
    ensures r.None? <==> forall i :: 0 <= i < |table| ==> table[i].name != name
    ensures r.Some? ==> r.value in table && r.value.name == name
  {
    if |table| == 0 then None
    else if table[0].name == name then Some(table[0])
    else Find(table[1..], name)
  }

  /** `getCategoryColor(name, type)`: the entry's colour, or grey (also for an empty colour). */
  function GetCategoryColor(name: string, t: TxType): (r: string)
    ensures Find(TableFor(t), name).None? ==> r == DefaultColor
    ensures Find(TableFor(t), name).Some? && Find(TableFor(t), name).value.color != "" ==> r == Find(TableFor(t), name).value.color
  {
    match Find(TableFor(t), name)
    case None => DefaultColor
    case Some(c) => if c.color != "" then c.color else DefaultColor
  }

  /** `getCategoryIcon(name, type)`: the entry's icon, or the memo icon. */
  function GetCategoryIcon(name: string, t: TxType): (r: string)
    ensures Find(TableFor(t), name).None? ==> r == DefaultIcon
    ensures Find(TableFor(t), name).Some? && Find(TableFor(t), name).value.icon != "" ==> r == Find(TableFor(t), name).value.icon
  {
    match Find(TableFor(t), name)
    case None => DefaultIcon
    case Some(c) => if c.icon != "" then c.icon else DefaultIcon
  }

  /** No two entries of a table share a name, so the lookup is unambiguous. */
  predicate UniqueNames(table: seq<CategoryStyle>) {
    forall i, j :: 0 <= i < j < |table| ==> table[i].name != table[j].name
  }

  /** With unique names, the entry found for a name in the table is the only one with that name. */
  lemma {:induction false} FindUnique(table: seq<CategoryStyle>, k: nat)
    requires UniqueNames(table) && k < |table|
    ensures Find(table, table[k].name) == Some(table[k])
  {
    if k > 0 {
      assert table[0].name != table[k].name;
      assert UniqueNames(table[1..]);
      assert table[1..][k - 1] == table[k];
      FindUnique(table[1..], k - 1);
    }
  }

  lemma {:induction false} TablesHaveUniqueNames()
    ensures UniqueNames(ExpenseCategories) && UniqueNames(IncomeCategories)
  {
  }

  /**
   * A lookup consults only the table of its own type: an income category
   * name looked up as an expense gets the default colour, and the other way round.
   */
  lemma {:induction false} LookupsStayInTheirTable()
    ensures GetCategoryColor("Salario", Expense) == DefaultColor
    ensures GetCategoryColor("Salario", Income) == "#059669"
    ensures GetCategoryIcon("Alimentación", Income) == DefaultIcon
    ensures GetCategoryIcon("Alimentación", Expense) == "🍽️"
  {
    SalarioNotAnExpense();
    SalarioColor();
    AlimentacionNotAnIncome();
    AlimentacionIcon();
  }

  lemma {:induction false} SalarioNotAnExpense()
    ensures GetCategoryColor("Salario", Expense) == DefaultColor
  {
    assert forall i :: 0 <= i < |ExpenseCategories| ==> ExpenseCategories[i].name != "Salario";
  }

  lemma {:induction false} SalarioColor()
    ensures GetCategoryColor("Salario", Income) == "#059669"
  {
    assert Find(IncomeCategories, "Salario") == Some(IncomeCategories[0]);
  }

  lemma {:induction false} AlimentacionNotAnIncome()
    ensures GetCategoryIcon("Alimentación", Income) == DefaultIcon
  {
    assert forall i :: 0 <= i < |IncomeCategories| ==> IncomeCategories[i].name != "Alimentación";
  }

  lemma {:induction false} AlimentacionIcon()
    ensures GetCategoryIcon("Alimentación", Expense) == "🍽️"
  {
    assert Find(ExpenseCategories, "Alimentación") == Some(ExpenseCategories[0]);
  }
}
