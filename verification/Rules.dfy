/** Catalog rules: one rule, two evaluators. A rule is compiled to a database filter, read with
    SQL's three truth values, and is also evaluated directly on a fetched product. */
module Rules {
  import opened Options

  datatype Json =
    | JNull
    | JBool(b: bool)
    | JNumber(n: real)
    | JString(s: string)
    | JArray(items: seq<Json>)
    | JObject(fields: map<string, Json>)

  datatype Field = OnSale | AgeDays | CategoryId | BrandId | TagId | Price | UnitsSold7d | UnitsSold30d | IsFeatured
  datatype Op = Eq | Neq | Lt | Lte | Gt | Gte | In
  datatype Condition = Condition(field: Field, op: Op, value: Json)
  datatype Match = All | Any
  datatype RuleSet = RuleSet(mode: Match, conditions: seq<Condition>)

  /** createdAt and now are in milliseconds. */
  datatype Product = Product(onSale: bool, createdAt: int, categoryId: Option<string>, brandId: Option<string>,
                             tagIds: seq<string>, price: Option<real>, unitsSold7d: int,
                             unitsSold30d: int, isFeatured: bool)

  const DAY_MS := 86_400_000

  // ---- coercions ------------------------------------------------------------

  /** Number and String on values of another type, which no accepted rule needs. */
  datatype Js = Js(toNumber: Json -> real, toText: Json -> string)
  {
    function Number(v: Json): real { if v.JNumber? then v.n else toNumber(v) }

    function Text(v: Json): string { if v.JString? then v.s else toText(v) }

    function TextArray(v: Json): seq<string>
    {
      if v.JArray? then seq(|v.items|, i requires 0 <= i < |v.items| => Text(v.items[i])) else [Text(v)]
    }
  }

  /** Boolean(v). */
  predicate Truthy(v: Json)
  {
    match v
    case JNull => false
    case JBool(b) => b
    case JNumber(n) => n != 0.0
    case JString(s) => s != ""
    case _ => true
  }

  // ---- the filter -----------------------------------------------------------

  datatype Truth = Yes | No | Unknown

  datatype Comparison = Equals | Not | Below | AtMost | Above | AtLeast

  datatype NumberColumn = BasePrice | Sold7d | Sold30d

  datatype IdColumn = CategoryColumn | BrandColumn

  datatype Filter =
    | Unconstrained
    | SaleIs(b: bool)
    | FeaturedIs(b: bool)
    | Created(cmp: Comparison, at: int)
    | Numeric(column: NumberColumn, cmp: Comparison, n: real)
    | IdEquals(id: IdColumn, s: string)
    | IdNot(id: IdColumn, s: string)
    | IdIn(id: IdColumn, ids: seq<string>)
    | SomeTagIs(s: string)
    | SomeTagIn(ids: seq<string>)

  datatype Where = Everything | AllOf(parts: seq<Filter>) | AnyOf(parts: seq<Filter>)

  function NumericOp(op: Op): Comparison
  {
    match op
    case Lt => Below
    case Lte => AtMost
    case Gt => Above
    case Gte => AtLeast
    case Neq => Not
    case _ => Equals
  }

  /** new Date(x): the time value is truncated toward zero. */
  function Trunc(x: real): int
  {
    if x >= 0.0 then x.Floor else -((-x).Floor)
  }

  /** The moment at which a product is exactly the given number of days old. */
  function Birth(now: int, days: real): real
  {
    now as real - days * DAY_MS as real
  }

  function IdFilter(js: Js, column: IdColumn, c: Condition): Filter
  {
    match c.op
    case In => IdIn(column, js.TextArray(c.value))
    case Neq => IdNot(column, js.Text(c.value))
    case _ => IdEquals(column, js.Text(c.value))
  }

  function ConditionToWhere(js: Js, c: Condition, now: int): Filter
  {
    match c.field
    case OnSale => SaleIs(Truthy(c.value))
    case IsFeatured => FeaturedIs(Truthy(c.value))
    case AgeDays =>
      var boundary := Trunc(Birth(now, js.Number(c.value)));
      (match c.op
       case Lte => Created(AtLeast, boundary)
       case Lt => Created(AtLeast, boundary)
       case Gte => Created(AtMost, boundary)
       case Gt => Created(AtMost, boundary)
       case _ => Unconstrained)
    case Price => Numeric(BasePrice, NumericOp(c.op), js.Number(c.value))
    case UnitsSold7d => Numeric(Sold7d, NumericOp(c.op), js.Number(c.value))
    case UnitsSold30d => Numeric(Sold30d, NumericOp(c.op), js.Number(c.value))
    case CategoryId => IdFilter(js, CategoryColumn, c)
    case BrandId => IdFilter(js, BrandColumn, c)
    case TagId => if c.op.In? then SomeTagIn(js.TextArray(c.value)) else SomeTagIs(js.Text(c.value))
  }

  function RuleToWhere(js: Js, rule: Option<RuleSet>, now: int): Where
  {
    if rule.None? || rule.value.conditions == [] then Everything
    else
      var cs := rule.value.conditions;
      var parts := seq(|cs|, i requires 0 <= i < |cs| => ConditionToWhere(js, cs[i], now));
      if rule.value.mode.Any? then AnyOf(parts) else AllOf(parts)
  }

  // ---- what a filter means to the database ----------------------------------

  function Known(b: bool): Truth { if b then Yes else No }

  /** NULL compares as unknown with everything. */
  function Compare(a: Option<real>, cmp: Comparison, b: real): Truth
  {
    if a.None? then Unknown
    else
      match cmp
      case Equals => Known(a.value == b)
      case Not => Known(a.value != b)
      case Below => Known(a.value < b)
      case AtMost => Known(a.value <= b)
      case Above => Known(a.value > b)
      case AtLeast => Known(a.value >= b)
  }

  function NumberAt(p: Product, column: NumberColumn): Option<real>
  {
    match column
    case BasePrice => p.price
    case Sold7d => Some(p.unitsSold7d as real)
    case Sold30d => Some(p.unitsSold30d as real)
  }

  function IdAt(p: Product, column: IdColumn): Option<string>
  {
    match column case CategoryColumn => p.categoryId case BrandColumn => p.brandId
  }

  function Eval(f: Filter, p: Product): Truth
  {
    match f
    case Unconstrained => Yes
    case SaleIs(b) => Known(p.onSale == b)
    case FeaturedIs(b) => Known(p.isFeatured == b)
    case Created(cmp, at) => Compare(Some(p.createdAt as real), cmp, at as real)
    case Numeric(column, cmp, n) => Compare(NumberAt(p, column), cmp, n)
    case IdEquals(column, s) => if IdAt(p, column).None? then Unknown else Known(IdAt(p, column).value == s)
    case IdNot(column, s) => if IdAt(p, column).None? then Unknown else Known(IdAt(p, column).value != s)
    case IdIn(column, ids) => if IdAt(p, column).None? then Unknown else Known(IdAt(p, column).value in ids)
    case SomeTagIs(s) => Known(s in p.tagIds)
    case SomeTagIn(ids) => Known(exists t | t in p.tagIds :: t in ids)
  }

  function And(a: Truth, b: Truth): Truth
  {
    if a.No? || b.No? then No else if a.Yes? && b.Yes? then Yes else Unknown
  }

  function Or(a: Truth, b: Truth): Truth
  {
    if a.Yes? || b.Yes? then Yes else if a.No? && b.No? then No else Unknown
  }

  function EvalAll(fs: seq<Filter>, p: Product): Truth
  {
    if fs == [] then Yes else And(EvalAll(fs[..|fs| - 1], p), Eval(fs[|fs| - 1], p))
  }

  function EvalAny(fs: seq<Filter>, p: Product): Truth
  {
    if fs == [] then No else Or(EvalAny(fs[..|fs| - 1], p), Eval(fs[|fs| - 1], p))
  }

  /** A query returns the rows whose condition is true, not those where it is unknown. */
  predicate Selects(w: Where, p: Product)
  {
    match w
    case Everything => true
    case AllOf(parts) => EvalAll(parts, p).Yes?
    case AnyOf(parts) => EvalAny(parts, p).Yes?
  }

  // ---- the predicate --------------------------------------------------------

  predicate CompareNumber(a: real, op: Op, b: real)
  {
    match op
    case Lt => a < b
    case Lte => a <= b
    case Gt => a > b
    case Gte => a >= b
    case Neq => a != b
    case _ => a == b
  }

  predicate IdMatches(js: Js, id: Option<string>, c: Condition)
  {
    match c.op
    case In => id.Some? && id.value in js.TextArray(c.value)
    case Neq => id != Some(js.Text(c.value))
    case _ => id == Some(js.Text(c.value))
  }

  function AgeInDays(p: Product, now: int): real
  {
    (now - p.createdAt) as real / DAY_MS as real
  }

  predicate ConditionMatches(js: Js, p: Product, c: Condition, now: int)
  {
    match c.field
    case OnSale => p.onSale == Truthy(c.value)
    case IsFeatured => p.isFeatured == Truthy(c.value)
    case AgeDays => CompareNumber(AgeInDays(p, now), c.op, js.Number(c.value))
    case Price => p.price.Some? && CompareNumber(p.price.value, c.op, js.Number(c.value))
    case UnitsSold7d => CompareNumber(p.unitsSold7d as real, c.op, js.Number(c.value))
    case UnitsSold30d => CompareNumber(p.unitsSold30d as real, c.op, js.Number(c.value))
    case CategoryId => IdMatches(js, p.categoryId, c)
    case BrandId => IdMatches(js, p.brandId, c)
    case TagId =>
      if c.op.In? then exists id | id in js.TextArray(c.value) :: id in p.tagIds else js.Text(c.value) in p.tagIds
  }

  predicate ProductMatchesRule(js: Js, p: Product, rule: Option<RuleSet>, now: int)
  {
    if rule.None? || rule.value.conditions == [] then false
    else if rule.value.mode.Any? then exists c | c in rule.value.conditions :: ConditionMatches(js, p, c, now)
    else forall c | c in rule.value.conditions :: ConditionMatches(js, p, c, now)
  }

  // ---- validation -----------------------------------------------------------

  datatype Problem = NotAnObject | BadMatch | BadConditions | BadCondition(index: nat)

  datatype Validation = Ok(rule: RuleSet) | Malformed(problem: Problem)

  predicate IsBooleanField(f: Field) { f.OnSale? || f.IsFeatured? }
  predicate IsNumberField(f: Field) { f.AgeDays? || f.Price? || f.UnitsSold7d? || f.UnitsSold30d? }
  predicate IsIdField(f: Field) { f.CategoryId? || f.BrandId? || f.TagId? }

  function FieldName(f: Field): string
  {
    match f
    case OnSale => "onSale"
    case AgeDays => "ageDays"
    case CategoryId => "categoryId"
    case BrandId => "brandId"
    case TagId => "tagId"
    case Price => "price"
    case UnitsSold7d => "unitsSold7d"
    case UnitsSold30d => "unitsSold30d"
    case IsFeatured => "isFeatured"
  }

  function OpName(op: Op): string
  {
    match op
    case Eq => "eq"
    case Neq => "neq"
    case Lt => "lt"
    case Lte => "lte"
    case Gt => "gt"
    case Gte => "gte"
    case In => "in"
  }

  const RULE_FIELDS := [OnSale, AgeDays, CategoryId, BrandId, TagId, Price, UnitsSold7d, UnitsSold30d, IsFeatured]
  const RULE_OPS := [Eq, Neq, Lt, Lte, Gt, Gte, In]

  function Find<T>(xs: seq<T>, name: T -> string, v: Option<Json>): (found: Option<T>)
    ensures found.Some? ==> found.value in xs && v == Some(JString(name(found.value)))
    ensures found.None? ==> forall x | x in xs :: v != Some(JString(name(x)))
  {
    if xs == [] then None
    else if v == Some(JString(name(xs[0]))) then Some(xs[0])
    else Find(xs[1..], name, v)
  }

  /** A property of an object; undefined for anything without it. */
  function Property(v: Json, name: string): Option<Json>
  {
    if v.JObject? && name in v.fields then Some(v.fields[name]) else None
  }

  /** The type check on a condition's value. */
  predicate ValueFits(f: Field, op: Op, v: Option<Json>)
  {
    && (IsBooleanField(f) ==> v.Some? && v.value.JBool?)
    && (IsNumberField(f) ==> v.Some? && v.value.JNumber?)
    && (IsIdField(f) ==>
          v.Some? && if op.In? then v.value.JArray? && forall x | x in v.value.items :: x.JString?
                    else v.value.JString?)
  }

  function ValidateCondition(raw: Json): Option<Condition>
  {
    var field := Find(RULE_FIELDS, FieldName, Property(raw, "field"));
    var op := Find(RULE_OPS, OpName, Property(raw, "op"));
    var v := Property(raw, "value");
    if field.None? || op.None? || !ValueFits(field.value, op.value, v) then None
    else Some(Condition(field.value, op.value, v.value))
  }

  /** The clean conditions, or the index of the first malformed one. */
  function ValidateConditions(raws: seq<Json>): (r: (seq<Condition>, bool))
    ensures r.1 ==> |r.0| == |raws|
    ensures !r.1 ==> |r.0| < |raws|
  {
    if raws == [] then ([], true)
    else
      var before := ValidateConditions(raws[..|raws| - 1]);
      var last := ValidateCondition(raws[|raws| - 1]);
      if !before.1 || last.None? then (before.0, false) else (before.0 + [last.value], true)
  }

  function ParseMatch(v: Option<Json>): Option<Match>
  {
    if v == Some(JString("ALL")) then Some(All) else if v == Some(JString("ANY")) then Some(Any) else None
  }

  function ValidateRuleSet(value: Json): Validation
  {
    if !value.JObject? && !value.JArray? then Malformed(NotAnObject)
    else
      var m := ParseMatch(Property(value, "match"));
      var cs := Property(value, "conditions");
      if m.None? then Malformed(BadMatch)
      else if cs.None? || !cs.value.JArray? || cs.value.items == [] then Malformed(BadConditions)
      else
        var (conditions, ok) := ValidateConditions(cs.value.items);
        if !ok then Malformed(BadCondition(|conditions|))
        else Ok(RuleSet(m.value, conditions))
  }
}
