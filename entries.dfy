/**
  The values the SWOT screen works on: the four categories, a draft row of the
  input form, a committed entry and the record of per-category totals.
 */
module Entries {

  datatype Option<T> = None | Some(value: T)

  /** The closed set of SWOT categories. */
  datatype Category = Strengths | Weaknesses | Opportunities | Threats

  /** The label a row's `criteria` text holds once this category is picked. */
  function Name(c: Category): string
  {
    match c
    case Strengths => "Strengths"
    case Weaknesses => "Weaknesses"
    case Opportunities => "Opportunities"
    case Threats => "Threats"
  }

  /** Membership of a `criteria` text in the list of the four labels. */
  function CategoryOf(s: string): Option<Category>
  {
    if s == "Strengths" then Some(Strengths)
    else if s == "Weaknesses" then Some(Weaknesses)
    else if s == "Opportunities" then Some(Opportunities)
    else if s == "Threats" then Some(Threats)
    else None
  }

  /** A text names category `c` exactly when it is that category's label. */
  lemma CategoryOfExact(s: string, c: Category)
    ensures CategoryOf(s) == Some(c) <==> s == Name(c)
  {
  }

  /** Any `criteria` text that is not one of the four labels. */
  type OtherText = s: string | CategoryOf(s).None? witness ""

  /** A row's `criteria` text, read once: one of the four labels, or some
      other text ("" until a category is picked). */
  datatype Criteria = Label(category: Category) | Other(text: OtherText)

  function ReadCriteria(s: string): (r: Criteria)
    ensures r.Label? <==> CategoryOf(s).Some?
  {
    match CategoryOf(s)
    case Some(c) => Label(c)
    case None => Other(s)
  }

  /** The text a `Criteria` stands for. */
  function CriteriaText(k: Criteria): string
  {
    match k
    case Label(c) => Name(c)
    case Other(s) => s
  }

  /** Reading a text and writing it back gives the same text, and the other
      way round: no `criteria` text is lost or conflated. */
  lemma CriteriaRoundTrip(s: string, k: Criteria)
    ensures CriteriaText(ReadCriteria(s)) == s
    ensures ReadCriteria(CriteriaText(k)) == k
  {
    if CategoryOf(s).Some? {
      CategoryOfExact(s, CategoryOf(s).value);
    }
    if k.Label? {
      CategoryOfExact(Name(k.category), k.category);
    }
  }

  /** A row of the input form; `score` is the raw text the user typed. */
  datatype Draft = Draft(criteria: Criteria, description: string, score: string, showDropdown: bool)

  /** The row that starts the form and that "Add" appends. */
  const Blank := Draft(Other(""), "", "", false)

  /** The text fields a row edit can name (the source passes the key as a string). */
  datatype Field = CriteriaKey | DescriptionKey | ScoreKey

  function FieldValue(e: Draft, f: Field): string
  {
    match f
    case CriteriaKey => CriteriaText(e.criteria)
    case DescriptionKey => e.description
    case ScoreKey => e.score
  }

  /** The row with field `f` set to `v`. */
  function SetField(e: Draft, f: Field, v: string): (r: Draft)
    ensures FieldValue(r, f) == v
    ensures forall g: Field :: g != f ==> FieldValue(r, g) == FieldValue(e, g)
    ensures r.showDropdown == e.showDropdown
  {
    CriteriaRoundTrip(v, e.criteria);
    match f
    case CriteriaKey => e.(criteria := ReadCriteria(v))
    case DescriptionKey => e.(description := v)
    case ScoreKey => e.(score := v)
  }

  /** The row list with field `f` of row `i` set to `v`. */
  function EditAt(rows: seq<Draft>, i: nat, f: Field, v: string): (r: seq<Draft>)
    requires i < |rows|
    ensures |r| == |rows|
    ensures FieldValue(r[i], f) == v && r[i].showDropdown == rows[i].showDropdown
    ensures forall g: Field :: g != f ==> FieldValue(r[i], g) == FieldValue(rows[i], g)
    ensures forall j :: 0 <= j < |r| && j != i ==> r[j] == rows[j]
  {
    rows[i := SetField(rows[i], f, v)]
  }

  /** The row list with the dropdown flag of row `i` flipped. */
  function ToggleAt(rows: seq<Draft>, i: nat): (r: seq<Draft>)
    requires i < |rows|
    ensures |r| == |rows|
    ensures r[i].showDropdown == !rows[i].showDropdown
    ensures forall g: Field :: FieldValue(r[i], g) == FieldValue(rows[i], g)
    ensures forall j :: 0 <= j < |r| && j != i ==> r[j] == rows[j]
  {
    rows[i := rows[i].(showDropdown := !rows[i].showDropdown)]
  }

  lemma ToggleTwice(rows: seq<Draft>, i: nat)
    requires i < |rows|
    ensures ToggleAt(ToggleAt(rows, i), i) == rows
  {
  }

  /** An accepted row: its category, its description and its parsed score. */
  datatype Entry = Entry(category: Category, description: string, score: real)

  /** One running sum per category. */
  datatype Totals = Totals(strengths: real, weaknesses: real, opportunities: real, threats: real)
  {
    function Get(c: Category): real
    {
      match c
      case Strengths => strengths
      case Weaknesses => weaknesses
      case Opportunities => opportunities
      case Threats => threats
    }

    /** The record with `x` added to the sum of category `c`. */
    function Add(c: Category, x: real): (r: Totals)
      ensures r.Get(c) == Get(c) + x
      ensures forall d: Category :: d != c ==> r.Get(d) == Get(d)
    {
      match c
      case Strengths => this.(strengths := strengths + x)
      case Weaknesses => this.(weaknesses := weaknesses + x)
      case Opportunities => this.(opportunities := opportunities + x)
      case Threats => this.(threats := threats + x)
    }
  }

  const Zero := Totals(0.0, 0.0, 0.0, 0.0)
}
