/** What the validator decides: it accepts exactly the bodies that satisfy
    the field rules, and every violation it reports names a field whose rule
    fails, while every failing field is named by at least one violation. */
module ValidationFacts {
  import opened Wrappers
  import opened Json
  import opened Validation

  /** Every rule of a chain runs: each failing rule contributes its own
      message, and each reported message is that of a failing rule. */
  lemma {:induction false} RunRulesReportsEachFailure(field: Field, rules: seq<Rule>, v: Option<Value>)
    ensures forall i :: 0 <= i < |rules| && !Passes(rules[i].check, v) ==>
      Violation(field, rules[i].message) in RunRules(field, rules, v)
    ensures forall e :: e in RunRules(field, rules, v) ==>
      exists i :: 0 <= i < |rules| && !Passes(rules[i].check, v) && e.message == rules[i].message
  {
    if rules != [] {
      RunRulesReportsEachFailure(field, rules[1..], v);
      assert forall i :: 1 <= i < |rules| ==> rules[i] == rules[1..][i - 1];
      forall e | e in RunRules(field, rules, v)
        ensures exists i :: 0 <= i < |rules| && !Passes(rules[i].check, v) && e.message == rules[i].message
      {
        if e !in RunRules(field, rules[1..], v) {
          assert !Passes(rules[0].check, v) && e.message == rules[0].message;
        } else {
          var j :| 0 <= j < |rules[1..]| && !Passes(rules[1..][j].check, v) && e.message == rules[1..][j].message;
          assert !Passes(rules[j + 1].check, v) && e.message == rules[j + 1].message;
        }
      }
    }
  }

  lemma {:induction false} InRunChains(chains: seq<Chain>, body: Record, e: Violation)
    ensures e in RunChains(chains, body) <==> exists i :: 0 <= i < |chains| && e in RunChain(chains[i], body)
  {
    if chains != [] {
      InRunChains(chains[1..], body, e);
      assert forall i :: 1 <= i < |chains| ==> chains[i] == chains[1..][i - 1];
    }
  }

  /** Where each field's chain stands in the declaration order. */
  function Position(field: Field): (k: nat)
    ensures k < |MenuItemChains()| && MenuItemChains()[k] == ChainFor(field)
  {
    match field
    case Name => 0
    case Description => 1
    case Price => 2
    case Category => 3
    case Ingredients => 4
    case Available => 5
  }

  /** Each field's chain reports nothing exactly when the field's rule
      holds, and every violation it reports names that field. */
  lemma ChainMatchesRule(body: Record, field: Field)
    ensures RunChain(ChainFor(field), body) == [] <==> FieldOk(body, field)
    ensures forall e :: e in RunChain(ChainFor(field), body) ==> e.field == field
  {
    var c := ChainFor(field);
    var v := Lookup(body, Key(field));
    match field
    case Name =>
      assert Passes(c.rules[0].check, v) && Passes(c.rules[1].check, v) <==> NameOk(body);
    case Description =>
      assert Passes(c.rules[0].check, v) && Passes(c.rules[1].check, v) <==> DescriptionOk(body);
    case Price =>
      assert Passes(c.rules[0].check, v) <==> PriceOk(body);
    case Category =>
      assert Passes(c.rules[0].check, v) <==> CategoryOk(body);
    case Ingredients =>
      assert Passes(c.rules[0].check, v) <==> IngredientsOk(body);
    case Available =>
      assert c.optional && v.None? <==> "available" !in body;
  }

  /** Every chain in the list is the one declared for its field. */
  predicate Declared(chains: seq<Chain>) {
    forall k :: 0 <= k < |chains| ==> chains[k] == ChainFor(chains[k].field)
  }

  /** The menu-item chain list holds the declared chain of every entry. */
  lemma MenuItemChainsDeclared()
    ensures Declared(MenuItemChains())
  {
    var cs := MenuItemChains();
    forall k | 0 <= k < |cs|
      ensures cs[k] == ChainFor(cs[k].field)
    {
      assert cs[k] == ChainFor(Fields[k]);
    }
  }

  /** Declared chains report nothing iff the rules of all their fields hold. */
  lemma {:induction false} DeclaredChainsQuiet(chains: seq<Chain>, body: Record)
    requires Declared(chains)
    ensures RunChains(chains, body) == [] <==> forall k :: 0 <= k < |chains| ==> FieldOk(body, chains[k].field)
  {
    if chains != [] {
      assert chains[0] == ChainFor(chains[0].field);
      ChainMatchesRule(body, chains[0].field);
      assert Declared(chains[1..]) by {
        assert forall k :: 1 <= k < |chains| ==> chains[1..][k - 1] == chains[k];
      }
      DeclaredChainsQuiet(chains[1..], body);
      assert forall k :: 1 <= k < |chains| ==> chains[1..][k - 1] == chains[k];
    }
  }

  /** A violation reported by declared chains names a field whose rule fails. */
  lemma {:induction false} DeclaredChainsReportFailures(chains: seq<Chain>, body: Record, e: Violation)
    requires Declared(chains) && e in RunChains(chains, body)
    ensures !FieldOk(body, e.field)
  {
    assert chains != [];
    var c := chains[0];
    assert c == ChainFor(c.field);
    if e in RunChain(c, body) {
      ChainMatchesRule(body, c.field);
    } else {
      assert Declared(chains[1..]) by {
        assert forall k :: 1 <= k < |chains| ==> chains[1..][k - 1] == chains[k];
      }
      DeclaredChainsReportFailures(chains[1..], body, e);
    }
  }

  /** A failing field of a declared chain is named by some violation. */
  lemma DeclaredChainReportsField(chains: seq<Chain>, body: Record, k: nat)
    requires Declared(chains) && k < |chains| && !FieldOk(body, chains[k].field)
    ensures exists e :: e in RunChains(chains, body) && e.field == chains[k].field
  {
    var f := chains[k].field;
    assert chains[k] == ChainFor(f);
    ChainMatchesRule(body, f);
    var e := RunChain(chains[k], body)[0];
    InRunChains(chains, body, e);
  }

  /** The validator accepts a body iff every field rule holds. */
  lemma ValidateAcceptsIff(body: Record)
    ensures Validate(body) == [] <==> Acceptable(body)
  {
    var cs := MenuItemChains();
    MenuItemChainsDeclared();
    DeclaredChainsQuiet(cs, body);
    if !Acceptable(body) {
      var f :| !FieldOk(body, f);
      assert cs[Position(f)].field == f;
    }
  }

  lemma ViolationIsFailure(body: Record, e: Violation)
    requires e in Validate(body)
    ensures !FieldOk(body, e.field)
  {
    MenuItemChainsDeclared();
    DeclaredChainsReportFailures(MenuItemChains(), body, e);
  }

  lemma FailureIsReported(body: Record, f: Field)
    requires !FieldOk(body, f)
    ensures exists e :: e in Validate(body) && e.field == f
  {
    MenuItemChainsDeclared();
    assert MenuItemChains()[Position(f)].field == f;
    DeclaredChainReportsField(MenuItemChains(), body, Position(f));
  }

  /** Every reported violation names a field whose rule fails, and every
      failing field is named by at least one violation. */
  lemma ViolationsNameFailingFields(body: Record)
    ensures forall e :: e in Validate(body) ==> !FieldOk(body, e.field)
    ensures forall f :: !FieldOk(body, f) ==> exists e :: e in Validate(body) && e.field == f
  {
    forall e | e in Validate(body)
      ensures !FieldOk(body, e.field)
    {
      ViolationIsFailure(body, e);
    }
    forall f | !FieldOk(body, f)
      ensures exists e :: e in Validate(body) && e.field == f
    {
      FailureIsReported(body, f);
    }
  }
}
