/**
 * The client's form validation, shared by the checkout and sign-in pages:
 * a schema of per-field string rules (zod's `z.string().min(n, msg)` and
 * `.email(msg)` in an object schema), the issues a parse reports, and the
 * loop that turns those issues into one message per field.
 */
module Forms {

  /** A validation issue: the path of the offending value and its message. */
  datatype Issue = Issue(path: seq<string>, message: string)

  /** One field's check. */
  datatype Rule =
    | MinLength(field: string, min: nat, message: string)  // `z.string().min(min, message)`
    | Email(field: string, message: string)                 // `z.string().email(message)`

  /** zod's message for a key the object lacks. */
  const RequiredMessage := "Required"

  /** Whether a present value passes its rule; the e-mail syntax test is a parameter. */
  predicate Passes(rule: Rule, value: string, isEmail: string -> bool)
  {
    match rule
    case MinLength(_, min, _) => |value| >= min
    case Email(_, _) => isEmail(value)
  }

  /** The issues of one rule: none when the value passes, else one at the field's path. */
  function RuleIssues(rule: Rule, values: map<string, string>, isEmail: string -> bool): (r: seq<Issue>)
    ensures |r| <= 1
    ensures |r| == 1 ==> r[0].path == [rule.field]
  {
    if rule.field !in values then [Issue([rule.field], RequiredMessage)]
    else if Passes(rule, values[rule.field], isEmail) then []
    else [Issue([rule.field], rule.message)]
  }

  /** `schema.safeParse(values)`: the issues of every rule, in the schema's key order. */
  function Validate(rules: seq<Rule>, values: map<string, string>, isEmail: string -> bool): seq<Issue>
  {
    if |rules| == 0 then []
    else Validate(rules[..|rules| - 1], values, isEmail) + RuleIssues(rules[|rules| - 1], values, isEmail)
  }

  /** The value of every rule's field is present and passes. */
  predicate AllPass(rules: seq<Rule>, values: map<string, string>, isEmail: string -> bool)
  {
    forall i :: 0 <= i < |rules| ==> rules[i].field in values && Passes(rules[i], values[rules[i].field], isEmail)
  }

  /** The parse succeeds exactly when every rule passes. */
  lemma {:induction false} ValidateEmptyIff(rules: seq<Rule>, values: map<string, string>, isEmail: string -> bool)
    ensures Validate(rules, values, isEmail) == [] <==> AllPass(rules, values, isEmail)
  {
    if |rules| > 0 {
      var n := |rules| - 1;
      var init := rules[..n];
      var last := rules[n];
      ValidateEmptyIff(init, values, isEmail);
      var lastPasses := last.field in values && Passes(last, values[last.field], isEmail);
      assert RuleIssues(last, values, isEmail) == [] <==> lastPasses;
      if AllPass(init, values, isEmail) && lastPasses {
        forall i | 0 <= i < |rules|
          ensures rules[i].field in values && Passes(rules[i], values[rules[i].field], isEmail)
        {
          if i < n {
            assert rules[i] == init[i];
          }
        }
      }
      if AllPass(rules, values, isEmail) {
        assert forall i :: 0 <= i < n ==> init[i] == rules[i];
      }
    }
  }

  /** `!!err.path[0]`: the issue names a field (a non-empty first path segment). */
  predicate NamesField(issue: Issue)
  {
    |issue.path| > 0 && issue.path[0] != ""
  }

  /** The field errors the issues leave: each named field gets the message of its last issue. */
  function LastMessages(issues: seq<Issue>): map<string, string>
  {
    if |issues| == 0 then map[]
    else
      var m := LastMessages(issues[..|issues| - 1]);
      var last := issues[|issues| - 1];
      if NamesField(last) then m[last.path[0] := last.message] else m
  }

  /**
   * `issues.forEach((err) => { if (err.path[0]) fieldErrors[err.path[0]] = err.message; })`.
   */
  method FieldErrors(issues: seq<Issue>) returns (fieldErrors: map<string, string>)
    ensures fieldErrors == LastMessages(issues)
  {
    fieldErrors := map[];
    var i := 0;
    while i < |issues|
      invariant 0 <= i <= |issues|
      invariant fieldErrors == LastMessages(issues[..i])
    {
      assert issues[..i + 1][..i] == issues[..i];
      var err := issues[i];
      if |err.path| > 0 && err.path[0] != "" {
        fieldErrors := fieldErrors[err.path[0] := err.message];
      }
      i := i + 1;
    }
    assert issues[..i] == issues;
  }

  /**
   * A field has an error exactly when some issue names it, and the error
   * is the message of the last issue that does.
   */
  lemma {:induction false} LastMessagesSpec(issues: seq<Issue>, key: string)
    ensures key in LastMessages(issues) <==>
      exists i :: 0 <= i < |issues| && NamesField(issues[i]) && issues[i].path[0] == key
    ensures key in LastMessages(issues) ==>
      exists i :: && 0 <= i < |issues| && NamesField(issues[i]) && issues[i].path[0] == key
                  && LastMessages(issues)[key] == issues[i].message
                  && forall j :: i < j < |issues| ==> !(NamesField(issues[j]) && issues[j].path[0] == key)
  {
    if |issues| > 0 {
      var init := issues[..|issues| - 1];
      LastMessagesSpec(init, key);
      assert forall i :: 0 <= i < |init| ==> init[i] == issues[i];
    }
  }

  /** The fields of the rules are pairwise different, as the keys of an object schema are. */
  predicate DistinctFields(rules: seq<Rule>)
  {
    forall i, j :: 0 <= i < j < |rules| ==> rules[i].field != rules[j].field
  }

  /** A present field's rule fails. */
  predicate Fails(rule: Rule, values: map<string, string>, isEmail: string -> bool)
  {
    rule.field in values && !Passes(rule, values[rule.field], isEmail)
  }

  /**
   * On a form holding every field of a schema with distinct, non-empty
   * field names, the errors shown are exactly the failing rules' fields,
   * each with its rule's message.
   */
  lemma {:induction false} ErrorsOfFailingRules(rules: seq<Rule>, values: map<string, string>, isEmail: string -> bool)
    requires DistinctFields(rules)
    requires forall i :: 0 <= i < |rules| ==> rules[i].field != "" && rules[i].field in values
    ensures forall i :: 0 <= i < |rules| ==>
      (rules[i].field in LastMessages(Validate(rules, values, isEmail)) <==> Fails(rules[i], values, isEmail))
    ensures forall i :: 0 <= i < |rules| && Fails(rules[i], values, isEmail) ==>
      LastMessages(Validate(rules, values, isEmail))[rules[i].field] == rules[i].message
    ensures forall key :: key in LastMessages(Validate(rules, values, isEmail)) ==>
      exists i :: 0 <= i < |rules| && rules[i].field == key
  {
    if |rules| > 0 {
      var init := rules[..|rules| - 1];
      var last := rules[|rules| - 1];
      ErrorsOfFailingRules(init, values, isEmail);
      var before := LastMessages(Validate(init, values, isEmail));
      var errs := LastMessages(Validate(rules, values, isEmail));
      LastMessagesAppend(Validate(init, values, isEmail), RuleIssues(last, values, isEmail));
      assert errs == if Fails(last, values, isEmail) then before[last.field := last.message] else before;
      forall i | 0 <= i < |rules|
        ensures rules[i].field in errs <==> Fails(rules[i], values, isEmail)
        ensures Fails(rules[i], values, isEmail) ==> errs[rules[i].field] == rules[i].message
      {
        if i < |init| {
          assert rules[i] == init[i] && init[i].field != last.field;
        }
      }
      forall key | key in errs
        ensures exists i :: 0 <= i < |rules| && rules[i].field == key
      {
        if key != last.field {
          var j :| 0 <= j < |init| && init[j].field == key;
          assert rules[j] == init[j];
        } else {
          assert rules[|rules| - 1].field == key;
        }
      }
    }
  }

  /** Appending at most one issue updates at most its field. */
  lemma LastMessagesAppend(issues: seq<Issue>, more: seq<Issue>)
    requires |more| <= 1
    ensures |more| == 0 ==> LastMessages(issues + more) == LastMessages(issues)
    ensures |more| == 1 && NamesField(more[0]) ==>
      LastMessages(issues + more) == LastMessages(issues)[more[0].path[0] := more[0].message]
  {
    if |more| == 0 {
      assert issues + more == issues;
    } else {
      assert (issues + more)[..|issues + more| - 1] == issues;
    }
  }
}
