/** The compiled filter selects exactly the products the predicate accepts, and where it does not. */
module RulesProofs {
  import opened Options
  import opened Rules

  // ---- validation -----------------------------------------------------------

  predicate WellTyped(c: Condition)
  {
    ValueFits(c.field, c.op, Some(c.value))
  }

  /** What validation asks of a value: a boolean, a number, or for an id a string, and under "in" a
      list of strings. */
  lemma {:induction false} WellTypedMeans(c: Condition)
    ensures WellTyped(c) <==>
              match c.field
              case OnSale => c.value.JBool?
              case IsFeatured => c.value.JBool?
              case AgeDays => c.value.JNumber?
              case Price => c.value.JNumber?
              case UnitsSold7d => c.value.JNumber?
              case UnitsSold30d => c.value.JNumber?
              case _ =>
                if c.op == In then c.value.JArray? && forall x | x in c.value.items :: x.JString? else c.value.JString?
  {
  }

  predicate WellTypedRule(rule: RuleSet)
  {
    rule.conditions != [] && forall c | c in rule.conditions :: WellTyped(c)
  }

  /** The JSON says this condition, perhaps among other properties. */
  predicate Says(raw: Json, c: Condition)
  {
    && Property(raw, "field") == Some(JString(FieldName(c.field)))
    && Property(raw, "op") == Some(JString(OpName(c.op)))
    && Property(raw, "value") == Some(c.value)
    && WellTyped(c)
  }

  ghost predicate SaysAll(raws: seq<Json>, cs: seq<Condition>)
  {
    |raws| == |cs| && forall i | 0 <= i < |raws| :: Says(raws[i], cs[i])
  }

  function MatchName(m: Match): string { match m case All => "ALL" case Any => "ANY" }

  ghost predicate SaysRule(value: Json, rule: RuleSet)
  {
    && Property(value, "match") == Some(JString(MatchName(rule.mode)))
    && rule.conditions != []
    && Property(value, "conditions").Some? && Property(value, "conditions").value.JArray?
    && SaysAll(Property(value, "conditions").value.items, rule.conditions)
  }

  lemma {:induction false} FieldNamesDiffer(f: Field, g: Field)
    ensures f in RULE_FIELDS && (FieldName(f) == FieldName(g) ==> f == g)
  {
    assert RULE_FIELDS[0].OnSale? && RULE_FIELDS[1].AgeDays? && RULE_FIELDS[2].CategoryId? && RULE_FIELDS[3].BrandId?;
    assert RULE_FIELDS[4].TagId? && RULE_FIELDS[5].Price?
           && RULE_FIELDS[6].UnitsSold7d? && RULE_FIELDS[7].UnitsSold30d?;
    assert RULE_FIELDS[8].IsFeatured?;
    var a, b := FieldName(f), FieldName(g);
    if a == b {
      assert |a| == |b| && a[0] == b[0] && a[|a| - 1] == b[|b| - 1];
    }
  }

  lemma {:induction false} OpNamesDiffer(o: Op, q: Op)
    ensures o in RULE_OPS && (OpName(o) == OpName(q) ==> o == q)
  {
    assert RULE_OPS[0].Eq? && RULE_OPS[1].Neq? && RULE_OPS[2].Lt? && RULE_OPS[3].Lte?;
    assert RULE_OPS[4].Gt? && RULE_OPS[5].Gte? && RULE_OPS[6].In?;
    var a, b := OpName(o), OpName(q);
    if a == b {
      assert |a| == |b| && a[0] == b[0] && a[|a| - 1] == b[|b| - 1];
    }
  }

  lemma {:induction false} ConditionAccepted(raw: Json, c: Condition)
    ensures ValidateCondition(raw) == Some(c) <==> Says(raw, c)
  {
    var field := Find(RULE_FIELDS, FieldName, Property(raw, "field"));
    var op := Find(RULE_OPS, OpName, Property(raw, "op"));
    FieldNamesDiffer(c.field, if field.Some? then field.value else c.field);
    OpNamesDiffer(c.op, if op.Some? then op.value else c.op);
  }

  lemma {:induction false} ConditionsAccepted(raws: seq<Json>)
    ensures ValidateConditions(raws).1 ==> SaysAll(raws, ValidateConditions(raws).0)
    ensures !ValidateConditions(raws).1 ==>
              var i := |ValidateConditions(raws).0|;
              SaysAll(raws[..i], ValidateConditions(raws).0) && forall c :: !Says(raws[i], c)
  {
    if raws != [] {
      var init, last := raws[..|raws| - 1], raws[|raws| - 1];
      ConditionsAccepted(init);
      assert raws == init + [last];
      var before := ValidateConditions(init);
      if before.1 {
        forall c ensures ValidateCondition(last) == Some(c) <==> Says(last, c) { ConditionAccepted(last, c); }
        assert raws[..|init|] == init;
      } else {
        assert raws[..|before.0|] == init[..|before.0|];
      }
    }
  }

  lemma {:induction false} SaysOnce(raws: seq<Json>, cs: seq<Condition>, ds: seq<Condition>)
    requires SaysAll(raws, cs) && SaysAll(raws, ds)
    ensures cs == ds
  {
    forall i | 0 <= i < |raws| ensures cs[i] == ds[i] {
      ConditionAccepted(raws[i], cs[i]);
      ConditionAccepted(raws[i], ds[i]);
    }
  }

  lemma {:induction false} ConditionsExactly(raws: seq<Json>, cs: seq<Condition>)
    ensures ValidateConditions(raws) == (cs, true) <==> SaysAll(raws, cs)
  {
    ConditionsAccepted(raws);
    var r := ValidateConditions(raws);
    if !r.1 {
      SaysNothing(raws, |r.0|, cs);
    } else if SaysAll(raws, cs) {
      SaysOnce(raws, r.0, cs);
    }
  }

  lemma {:induction false} SaysNothing(raws: seq<Json>, i: nat, cs: seq<Condition>)
    requires i < |raws| && forall c :: !Says(raws[i], c)
    ensures !SaysAll(raws, cs)
  {
    if |raws| == |cs| { assert !Says(raws[i], cs[i]); }
  }

  lemma {:induction false} MatchParsed(v: Option<Json>, m: Match)
    ensures ParseMatch(v) == Some(m) <==> v == Some(JString(MatchName(m)))
  {
    assert "ALL"[1] != "ANY"[1];
  }

  /** validateRuleSet accepts exactly the JSON that says a well-typed rule, and returns that rule. */
  lemma {:induction false} AcceptsExactly(value: Json, rule: RuleSet)
    ensures ValidateRuleSet(value) == Ok(rule) <==> SaysRule(value, rule)
  {
    var m, cs := Property(value, "match"), Property(value, "conditions");
    MatchParsed(m, rule.mode);
    if cs.Some? && cs.value.JArray? {
      ConditionsExactly(cs.value.items, rule.conditions);
    }
  }

  /** A rejected condition is the first one that says nothing. */
  lemma {:induction false} RejectsTheFirst(value: Json, i: nat)
    requires ValidateRuleSet(value) == Malformed(BadCondition(i))
    ensures var raws := Property(value, "conditions").value.items;
            i < |raws| && (forall c :: !Says(raws[i], c)) && exists good :: SaysAll(raws[..i], good)
  {
    ConditionsAccepted(Property(value, "conditions").value.items);
  }

  function ToJson(rule: RuleSet): Json
  {
    var cs := rule.conditions;
    JObject(map["match" := JString(MatchName(rule.mode)),
                "conditions" := JArray(seq(|cs|, i requires 0 <= i < |cs| => ConditionJson(cs[i])))])
  }

  function ConditionJson(c: Condition): Json
  {
    JObject(map["field" := JString(FieldName(c.field)), "op" := JString(OpName(c.op)), "value" := c.value])
  }

  lemma {:induction false} ToJsonSays(rule: RuleSet)
    requires WellTypedRule(rule)
    ensures SaysRule(ToJson(rule), rule)
  {
    assert "match" != "conditions";
    var items := Property(ToJson(rule), "conditions").value.items;
    forall i | 0 <= i < |items| ensures Says(items[i], rule.conditions[i]) {
      ConditionJsonSays(rule.conditions[i]);
    }
  }

  lemma {:induction false} ConditionJsonSays(c: Condition)
    requires WellTyped(c)
    ensures Says(ConditionJson(c), c)
  {
    assert "field" != "op" && "op" != "value" && "field" != "value";
  }

  lemma {:induction false} AcceptedIsWellTyped(value: Json, rule: RuleSet)
    requires ValidateRuleSet(value) == Ok(rule)
    ensures WellTypedRule(rule)
  {
    AcceptsExactly(value, rule);
    var raws := Property(value, "conditions").value.items;
    forall c | c in rule.conditions ensures WellTyped(c) {
      var i :| 0 <= i < |rule.conditions| && rule.conditions[i] == c;
      assert Says(raws[i], c);
    }
  }

  /** Validating is idempotent: what was accepted is accepted again, unchanged. */
  lemma {:induction false} ValidationIdempotent(value: Json, rule: RuleSet)
    requires ValidateRuleSet(value) == Ok(rule)
    ensures ValidateRuleSet(ToJson(rule)) == Ok(rule)
  {
    AcceptedIsWellTyped(value, rule);
    ToJsonSays(rule);
    AcceptsExactly(ToJson(rule), rule);
  }

  // ---- coercions ------------------------------------------------------------

  /** On an accepted condition no conversion between types takes place, so neither evaluator
      depends on how the language converts. */
  lemma {:induction false} NothingIsConverted(a: Js, b: Js, c: Condition, p: Product, now: int)
    requires WellTyped(c)
    ensures ConditionToWhere(a, c, now) == ConditionToWhere(b, c, now)
    ensures ConditionMatches(a, p, c, now) == ConditionMatches(b, p, c, now)
  {
    if c.value.JArray? { assert a.TextArray(c.value) == b.TextArray(c.value); }
  }

  // ---- what an accepted condition means -----------------------------------------

  /** An operator on numbers, by which of less, greater and equal it allows; every operator that
      is not a comparison asks for equality. */
  predicate Stands(a: real, op: Op, b: real)
  {
    || (a < b && op in {Lt, Lte, Neq})
    || (a > b && op in {Gt, Gte, Neq})
    || (a == b && op in {Eq, Lte, Gte, In})
  }

  predicate IdStands(id: Option<string>, op: Op, v: Json)
  {
    match v
    case JArray(items) => op.In? && id.Some? && JString(id.value) in items
    case JString(s) => !op.In? && (op.Neq? <==> id != Some(s))
    case _ => false
  }

  /** The meaning of a condition, in terms of the payload of its value alone. */
  ghost predicate Means(c: Condition, p: Product, now: int)
  {
    match (c.field, c.value)
    case (OnSale, JBool(b)) => p.onSale == b
    case (IsFeatured, JBool(b)) => p.isFeatured == b
    case (AgeDays, JNumber(days)) => Stands((now - p.createdAt) as real, c.op, days * 86_400_000.0)
    case (Price, JNumber(n)) => p.price.Some? && Stands(p.price.value, c.op, n)
    case (UnitsSold7d, JNumber(n)) => Stands(p.unitsSold7d as real, c.op, n)
    case (UnitsSold30d, JNumber(n)) => Stands(p.unitsSold30d as real, c.op, n)
    case (CategoryId, v) => IdStands(p.categoryId, c.op, v)
    case (BrandId, v) => IdStands(p.brandId, c.op, v)
    case (TagId, JArray(items)) => c.op.In? && exists t | t in p.tagIds :: JString(t) in items
    case (TagId, JString(s)) => !c.op.In? && s in p.tagIds
    case _ => false
  }

  lemma {:induction false} TextsOf(js: Js, v: Json, s: string)
    requires v.JArray? && forall x | x in v.items :: x.JString?
    ensures s in js.TextArray(v) <==> JString(s) in v.items
  {
    var texts := js.TextArray(v);
    if s in texts {
      var i :| 0 <= i < |texts| && texts[i] == s;
      assert v.items[i] in v.items && v.items[i] == JString(s);
    }
    if JString(s) in v.items {
      var i :| 0 <= i < |v.items| && v.items[i] == JString(s);
      assert texts[i] == s;
    }
  }

  lemma {:induction false} AgeInMs(p: Product, now: int, op: Op, days: real)
    ensures CompareNumber(AgeInDays(p, now), op, days)
            <==> Stands((now - p.createdAt) as real, op, days * 86_400_000.0)
  {
    assert AgeInDays(p, now) * 86_400_000.0 == (now - p.createdAt) as real;
  }

  /** The predicate says of a well-typed condition what it means. */
  lemma {:induction false} ConditionMeans(js: Js, c: Condition, p: Product, now: int)
    requires WellTyped(c)
    ensures ConditionMatches(js, p, c, now) <==> Means(c, p, now)
  {
    if c.field.AgeDays? { AgeInMs(p, now, c.op, c.value.n); }
    if IsIdField(c.field) && c.op.In? {
      forall s ensures s in js.TextArray(c.value) <==> JString(s) in c.value.items { TextsOf(js, c.value, s); }
    }
  }

  /** For every rule that validation accepts, the predicate accepts exactly the products of which
      all, or any, of its conditions hold as they are meant. */
  lemma {:induction false} RuleMeans(js: Js, value: Json, rule: RuleSet, p: Product, now: int)
    requires ValidateRuleSet(value) == Ok(rule)
    ensures ProductMatchesRule(js, p, Some(rule), now) <==>
              if rule.mode.All? then forall c | c in rule.conditions :: Means(c, p, now)
              else exists c | c in rule.conditions :: Means(c, p, now)
  {
    AcceptedIsWellTyped(value, rule);
    forall c | c in rule.conditions ensures ConditionMatches(js, p, c, now) <==> Means(c, p, now) {
      ConditionMeans(js, c, p, now);
    }
  }

  /** The names under which JSON says fields, operators and modes. */
  lemma {:induction false} Names()
    ensures FieldName(OnSale) == "onSale" && FieldName(IsFeatured) == "isFeatured" && FieldName(AgeDays) == "ageDays"
    ensures FieldName(CategoryId) == "categoryId" && FieldName(BrandId) == "brandId" && FieldName(TagId) == "tagId"
    ensures FieldName(Price) == "price" && FieldName(UnitsSold7d) == "unitsSold7d"
    ensures FieldName(UnitsSold30d) == "unitsSold30d"
    ensures OpName(Eq) == "eq" && OpName(Neq) == "neq" && OpName(Lt) == "lt" && OpName(Lte) == "lte"
    ensures OpName(Gt) == "gt" && OpName(Gte) == "gte" && OpName(In) == "in"
    ensures MatchName(All) == "ALL" && MatchName(Any) == "ANY"
  {
  }

  // ---- agreement ------------------------------------------------------------

  /** n is x without its fraction. */
  predicate IsWholePart(n: int, x: real)
  {
    if x >= 0.0 then n as real <= x < n as real + 1.0 else n as real - 1.0 < x <= n as real
  }

  /** Whether the two evaluators see the product's age alike: the filter drops the strictness of
      the comparison and the fraction of the boundary, and does not compile the other operators. */
  predicate AgeFaithful(op: Op, days: real, p: Product, now: int)
  {
    var birth := now as real - days * 86_400_000.0;
    var created := p.createdAt as real;
    match op
    case Lte => IsWholePart(p.createdAt, birth) ==> created >= birth
    case Lt => IsWholePart(p.createdAt, birth) ==> created > birth
    case Gte => IsWholePart(p.createdAt, birth) ==> created <= birth
    case Gt => IsWholePart(p.createdAt, birth) ==> created < birth
    case Neq => created != birth
    case _ => created == birth
  }

  predicate Faithful(c: Condition, p: Product, now: int)
  {
    match c.field
    case AgeDays => c.value.JNumber? ==> AgeFaithful(c.op, c.value.n, p, now)
    case CategoryId => c.op.Neq? ==> p.categoryId.Some?
    case BrandId => c.op.Neq? ==> p.brandId.Some?
    case _ => true
  }

  lemma {:induction false} AgeAsMoment(p: Product, now: int, op: Op, days: real)
    ensures var created, birth := p.createdAt as real, Birth(now, days);
            CompareNumber(AgeInDays(p, now), op, days) <==> CompareNumber(birth, op, created)
  {
    assert AgeInDays(p, now) * DAY_MS as real == (now - p.createdAt) as real;
  }

  lemma {:induction false} TruncBetween(x: real, n: int)
    ensures n < Trunc(x) ==> (n as real) < x
    ensures n > Trunc(x) ==> n as real > x
  {
  }

  lemma {:induction false} AgeAgrees(p: Product, now: int, op: Op, days: real, js: Js)
    ensures var c := Condition(AgeDays, op, JNumber(days));
            (Eval(ConditionToWhere(js, c, now), p).Yes? <==> ConditionMatches(js, p, c, now))
            <==> AgeFaithful(op, days, p, now)
  {
    AgeAsMoment(p, now, op, days);
    TruncBetween(Birth(now, days), p.createdAt);
  }

  /** One accepted condition: the filter's answer is the predicate's exactly when it is faithful. */
  lemma {:induction false} ConditionAgrees(js: Js, c: Condition, p: Product, now: int)
    requires WellTyped(c)
    ensures (Eval(ConditionToWhere(js, c, now), p).Yes? <==> ConditionMatches(js, p, c, now)) <==> Faithful(c, p, now)
  {
    match c.field {
      case AgeDays => AgeAgrees(p, now, c.op, c.value.n, js);
      case TagId => if c.op.In? { TagsMeet(p.tagIds, js.TextArray(c.value)); }
      case _ =>
    }
  }

  lemma {:induction false} TagsMeet(tags: seq<string>, ids: seq<string>)
    ensures (exists t | t in tags :: t in ids) <==> exists id | id in ids :: id in tags
  {
  }

  lemma {:induction false} AllIsForall(fs: seq<Filter>, p: Product)
    ensures EvalAll(fs, p).Yes? <==> forall i | 0 <= i < |fs| :: Eval(fs[i], p).Yes?
  {
    if fs != [] {
      AllIsForall(fs[..|fs| - 1], p);
      assert fs == fs[..|fs| - 1] + [fs[|fs| - 1]];
    }
  }

  lemma {:induction false} AnyIsExists(fs: seq<Filter>, p: Product)
    ensures EvalAny(fs, p).Yes? <==> exists i | 0 <= i < |fs| :: Eval(fs[i], p).Yes?
  {
    if fs != [] {
      AnyIsExists(fs[..|fs| - 1], p);
      assert fs == fs[..|fs| - 1] + [fs[|fs| - 1]];
    }
  }

  /** Whether the filter compiled for one condition selects the product. */
  predicate FilterSays(js: Js, c: Condition, p: Product, now: int)
  {
    Eval(ConditionToWhere(js, c, now), p).Yes?
  }

  /** The two kinds of unfaithful condition err in opposite directions: one on age selects a
      product it should not, a "not equal" on category or brand leaves out one it should select. */
  lemma {:induction false} UnfaithfulErrs(js: Js, c: Condition, p: Product, now: int)
    requires WellTyped(c) && !Faithful(c, p, now)
    ensures FilterSays(js, c, p, now) <==> c.field.AgeDays?
    ensures ConditionMatches(js, p, c, now) <==> !c.field.AgeDays?
  {
    ConditionAgrees(js, c, p, now);
    if c.field.AgeDays? { TruncBetween(Birth(now, c.value.n), p.createdAt); }
  }

  lemma {:induction false} PartsEval(js: Js, cs: seq<Condition>, p: Product, now: int)
    ensures var parts := seq(|cs|, i requires 0 <= i < |cs| => ConditionToWhere(js, cs[i], now));
            && (EvalAll(parts, p).Yes? <==> forall c | c in cs :: FilterSays(js, c, p, now))
            && (EvalAny(parts, p).Yes? <==> exists c | c in cs :: FilterSays(js, c, p, now))
  {
    var parts := seq(|cs|, i requires 0 <= i < |cs| => ConditionToWhere(js, cs[i], now));
    AllIsForall(parts, p);
    AnyIsExists(parts, p);
    assert forall i | 0 <= i < |cs| :: Eval(parts[i], p).Yes? <==> FilterSays(js, cs[i], p, now);
    if c :| c in cs && !FilterSays(js, c, p, now) {
      var i :| 0 <= i < |cs| && cs[i] == c;
      assert !Eval(parts[i], p).Yes?;
    }
    if c :| c in cs && FilterSays(js, c, p, now) {
      var i :| 0 <= i < |cs| && cs[i] == c;
      assert Eval(parts[i], p).Yes?;
    }
  }

  /** Some condition is unfaithful for the product, those that are err in the one direction
      given, and the faithful ones leave the decision to them. */
  ghost predicate Errs(js: Js, rule: RuleSet, p: Product, now: int, onAge: bool)
  {
    && (exists c | c in rule.conditions :: !Faithful(c, p, now))
    && (forall c | c in rule.conditions && !Faithful(c, p, now) :: c.field.AgeDays? == onAge)
    && (forall c | c in rule.conditions && Faithful(c, p, now) :: ConditionMatches(js, p, c, now) == rule.mode.All?)
  }

  /** The exact drift of a well-typed rule on a product, in either direction. */
  lemma {:induction false} DriftExactly(js: Js, rule: RuleSet, p: Product, now: int)
    requires WellTypedRule(rule)
    ensures var selected := Selects(RuleToWhere(js, Some(rule), now), p);
            var accepted := ProductMatchesRule(js, p, Some(rule), now);
            && (selected && !accepted <==> Errs(js, rule, p, now, true))
            && (accepted && !selected <==> Errs(js, rule, p, now, false))
  {
    PartsEval(js, rule.conditions, p, now);
    forall c | c in rule.conditions
      ensures FilterSays(js, c, p, now)
              <==> if Faithful(c, p, now) then ConditionMatches(js, p, c, now) else c.field.AgeDays?
      ensures !Faithful(c, p, now) ==> (ConditionMatches(js, p, c, now) <==> !c.field.AgeDays?)
    {
      ConditionAgrees(js, c, p, now);
      if !Faithful(c, p, now) { UnfaithfulErrs(js, c, p, now); }
    }
  }

  /** Compiler correctness, exactly: for every rule that validation accepts, whatever its JSON,
      and every product, the query and the predicate part if and only if the unfaithful
      conditions decide and err in one direction: on age the query selects too much, on category
      or brand too little. */
  lemma {:induction false} CompiledRuleExactly(js: Js, value: Json, rule: RuleSet, p: Product, now: int)
    requires ValidateRuleSet(value) == Ok(rule)
    ensures var selected := Selects(RuleToWhere(js, Some(rule), now), p);
            var accepted := ProductMatchesRule(js, p, Some(rule), now);
            && (selected && !accepted <==> Errs(js, rule, p, now, true))
            && (accepted && !selected <==> Errs(js, rule, p, now, false))
  {
    AcceptedIsWellTyped(value, rule);
    DriftExactly(js, rule, p, now);
  }

  /** So the query selects exactly the products the predicate accepts, if each condition is
      faithful for the product. */
  lemma {:induction false} CompiledRuleAgrees(js: Js, value: Json, rule: RuleSet, p: Product, now: int)
    requires ValidateRuleSet(value) == Ok(rule)
    requires forall c | c in rule.conditions :: Faithful(c, p, now)
    ensures Selects(RuleToWhere(js, Some(rule), now), p) <==> ProductMatchesRule(js, p, Some(rule), now)
  {
    CompiledRuleExactly(js, value, rule, p, now);
  }

  /** What the query makes of a condition: its meaning where it is faithful, and otherwise yes for
      a condition on age and no for one on category or brand. */
  ghost predicate FilterMeans(c: Condition, p: Product, now: int)
  {
    if Faithful(c, p, now) then Means(c, p, now) else c.field.AgeDays?
  }

  /** For every accepted rule, exactly which products the query selects. */
  lemma {:induction false} QueryMeans(js: Js, value: Json, rule: RuleSet, p: Product, now: int)
    requires ValidateRuleSet(value) == Ok(rule)
    ensures Selects(RuleToWhere(js, Some(rule), now), p) <==>
              if rule.mode.All? then forall c | c in rule.conditions :: FilterMeans(c, p, now)
              else exists c | c in rule.conditions :: FilterMeans(c, p, now)
  {
    AcceptedIsWellTyped(value, rule);
    PartsEval(js, rule.conditions, p, now);
    forall c | c in rule.conditions ensures FilterSays(js, c, p, now) <==> FilterMeans(c, p, now) {
      ConditionAgrees(js, c, p, now);
      ConditionMeans(js, c, p, now);
      if !Faithful(c, p, now) { UnfaithfulErrs(js, c, p, now); }
    }
  }

  predicate ExcludesAnId(c: Condition) { (c.field.CategoryId? || c.field.BrandId?) && c.op.Neq? }

  /** What can be read off a rule alone: without a "not equal" on category or brand no accepted
      product is left out, and without a condition on age no other product is selected. */
  lemma {:induction false} OneSided(js: Js, value: Json, rule: RuleSet, p: Product, now: int)
    requires ValidateRuleSet(value) == Ok(rule)
    ensures (forall c | c in rule.conditions :: !ExcludesAnId(c)) && ProductMatchesRule(js, p, Some(rule), now) ==>
              Selects(RuleToWhere(js, Some(rule), now), p)
    ensures (forall c | c in rule.conditions :: !c.field.AgeDays?) && Selects(RuleToWhere(js, Some(rule), now), p) ==>
              ProductMatchesRule(js, p, Some(rule), now)
  {
    CompiledRuleExactly(js, value, rule, p, now);
    assert forall c | c in rule.conditions && !Faithful(c, p, now) :: c.field.AgeDays? || ExcludesAnId(c);
  }

  /** With one condition the two evaluators agree on a product only if it is faithful. */
  lemma {:induction false} SingleConditionExactly(js: Js, c: Condition, m: Match, p: Product, now: int)
    requires WellTyped(c)
    ensures var rule := Some(RuleSet(m, [c]));
            (Selects(RuleToWhere(js, rule, now), p) <==> ProductMatchesRule(js, p, rule, now)) <==> Faithful(c, p, now)
  {
    DriftExactly(js, RuleSet(m, [c]), p, now);
    assert c in [c];
  }

  /** No rule at all is where the two always part: the query is unconstrained, the predicate refuses. */
  lemma {:induction false} NoRuleParts(js: Js, rule: Option<RuleSet>, p: Product, now: int)
    requires rule.Some? ==> rule.value.conditions == []
    ensures Selects(RuleToWhere(js, rule, now), p) && !ProductMatchesRule(js, p, rule, now)
  {
  }

  /** Two products on which accepted rules part: one without a category under "not this
      category", and one exactly thirty days old under "less than thirty days". */
  lemma {:induction false} WhereRulesDrift(js: Js)
    ensures var p := Product(false, 0, None, None, [], None, 0, 0, false);
            var other := Some(RuleSet(All, [Condition(CategoryId, Neq, JString("c"))]));
            var young := Some(RuleSet(All, [Condition(AgeDays, Lt, JNumber(30.0))]));
            && ProductMatchesRule(js, p, other, 0) && !Selects(RuleToWhere(js, other, 0), p)
            && !ProductMatchesRule(js, p, young, 30 * DAY_MS) && Selects(RuleToWhere(js, young, 30 * DAY_MS), p)
  {
    var p := Product(false, 0, None, None, [], None, 0, 0, false);
    var other, young := Condition(CategoryId, Neq, JString("c")), Condition(AgeDays, Lt, JNumber(30.0));
    SingleConditionExactly(js, other, All, p, 0);
    SingleConditionExactly(js, young, All, p, 30 * DAY_MS);
    assert [other][0] == other && [young][0] == young;
    assert ConditionMatches(js, p, other, 0) && !ConditionMatches(js, p, young, 30 * DAY_MS);
  }
}
