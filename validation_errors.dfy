/** `getValidationErrors`: run a schema, and turn a failed parse into a map
    from field name to that field's first error message. */
module ValidationErrors {
  import opened Zod

  /** `Partial<Record<keyof T, string>>`: at most one message per field. */
  type ErrorMap = map<string, string>

  /** The reference meaning of the result: for every field some issue names,
      the message of the earliest such issue. Issues are taken in the order
      the checks reported them; a later message never replaces an earlier one. */
  function FirstErrors(issues: seq<Issue>): (r: ErrorMap)
    ensures |r| <= |issues|
    decreases |issues|
  {
    if issues == [] then map[]
    else
      var acc := FirstErrors(issues[..|issues| - 1]);
      var x := issues[|issues| - 1];
      if x.path.Field? && x.path.name !in acc then acc[x.path.name := x.message] else acc
  }

  /** The map `getValidationErrors` returns for each way `parse` can end. */
  function ErrorsOf(outcome: ParseOutcome): (r: ErrorMap)
    ensures r != map[] ==> outcome.ZodFailure?
  {
    match outcome
    case Success => map[]
    case ZodFailure(issues) => FirstErrors(issues)
    case OtherFailure => map[]
  }

  /** A field has an entry exactly when some issue is about it. */
  lemma {:induction false} FirstErrorsKeys(issues: seq<Issue>, k: string)
    ensures k in FirstErrors(issues) <==> exists i :: 0 <= i < |issues| && issues[i].path == Field(k)
    decreases |issues|
  {
    if issues != [] {
      var p := issues[..|issues| - 1];
      FirstErrorsKeys(p, k);
      if k in FirstErrors(p) {
        var i :| 0 <= i < |p| && p[i].path == Field(k);
        assert issues[i].path == Field(k);
      }
      if exists i :: 0 <= i < |issues| && issues[i].path == Field(k) {
        var i :| 0 <= i < |issues| && issues[i].path == Field(k);
        if i < |p| {
          assert p[i] == issues[i];
        }
      }
    }
  }

  /** The entry of a field is the message of the first issue about it. */
  lemma {:induction false} FirstErrorsFirst(issues: seq<Issue>, i: nat)
    requires i < |issues| && issues[i].path.Field?
    requires forall j :: 0 <= j < i ==> issues[j].path != issues[i].path
    ensures issues[i].path.name in FirstErrors(issues)
    ensures FirstErrors(issues)[issues[i].path.name] == issues[i].message
    decreases |issues|
  {
    var k := issues[i].path.name;
    var p := issues[..|issues| - 1];
    if i < |p| {
      assert p[i] == issues[i];
      FirstErrorsFirst(p, i);
    } else {
      FirstErrorsKeys(p, k);
    }
  }

  /** Errors of a concatenation: the first list's entries win over the second's. */
  lemma {:induction false} FirstErrorsAppend(a: seq<Issue>, b: seq<Issue>)
    ensures FirstErrors(a + b) == FirstErrors(b) + FirstErrors(a)
    decreases |b|
  {
    if b == [] {
      assert a + b == a;
    } else {
      var b' := b[..|b| - 1];
      assert (a + b)[..|a + b| - 1] == a + b';
      assert (a + b)[|a + b| - 1] == b[|b| - 1];
      FirstErrorsAppend(a, b');
    }
  }

  /** The errors after one more field check: its message is added only when
      it fails and its field has no entry yet. */
  function AfterCheck(acc: ErrorMap, ok: bool, field: string, message: string): ErrorMap
  {
    if ok || field in acc then acc else acc[field := message]
  }

  /** One more field check after `prefix` adds its entry only where `prefix` has none. */
  lemma FirstErrorsThenCheck(prefix: seq<Issue>, ok: bool, field: string, message: string)
    ensures FirstErrors(prefix + Check(ok, field, message)) ==
      AfterCheck(FirstErrors(prefix), ok, field, message)
  {
    var issues := prefix + Check(ok, field, message);
    if ok {
      assert issues == prefix;
    } else {
      assert issues[..|issues| - 1] == prefix;
    }
  }

  /** The errors of a schema's checks, folded in order with `AfterCheck`. */
  function RulesErrors(rules: seq<Rule>): ErrorMap
    decreases |rules|
  {
    if rules == [] then map[]
    else
      var last := rules[|rules| - 1];
      AfterCheck(RulesErrors(rules[..|rules| - 1]), last.ok, last.field, last.message)
  }

  /** One more check at the end of the list is folded in last. */
  lemma RulesErrorsSnoc(rules: seq<Rule>, rule: Rule)
    ensures RulesErrors(rules + [rule]) == AfterCheck(RulesErrors(rules), rule.ok, rule.field, rule.message)
  {
    var longer := rules + [rule];
    assert longer[..|longer| - 1] == rules;
  }

  /** Folding the checks gives the first message per field of the issues they report. */
  lemma {:induction false} RulesErrorsAgree(rules: seq<Rule>)
    ensures FirstErrors(Issues(rules)) == RulesErrors(rules)
    decreases |rules|
  {
    if rules != [] {
      var prefix, last := rules[..|rules| - 1], rules[|rules| - 1];
      RulesErrorsAgree(prefix);
      FirstErrorsThenCheck(Issues(prefix), last.ok, last.field, last.message);
    }
  }

  /** Whether `parse` succeeds or throws, the result is the first message per field. */
  lemma ErrorsOfParse(issues: seq<Issue>)
    ensures ErrorsOf(Parse(issues)) == FirstErrors(issues)
  {
  }

  /** The result is empty exactly when no issue names a field. */
  lemma ErrorsOfEmpty(outcome: ParseOutcome)
    ensures ErrorsOf(outcome) == map[] <==>
      !(outcome.ZodFailure? && exists i :: 0 <= i < |outcome.issues| && outcome.issues[i].path.Field?)
  {
    if outcome.ZodFailure? {
      var issues := outcome.issues;
      if i :| 0 <= i < |issues| && issues[i].path.Field? {
        FirstErrorsKeys(issues, issues[i].path.name);
      } else if ErrorsOf(outcome) != map[] {
        var k :| k in FirstErrors(issues);
        FirstErrorsKeys(issues, k);
      }
    }
  }

  /** A schema's errors are empty exactly when its parse succeeds: every
      issue it can report is on a field. */
  lemma RulesErrorsEmpty(rules: seq<Rule>)
    ensures RulesErrors(rules) == map[] <==> Parse(Issues(rules)).Success?
  {
    RulesErrorsAgree(rules);
    ErrorsOfEmpty(Parse(Issues(rules)));
    if Issues(rules) != [] {
      IssuesFromRules(rules, 0);
    }
  }

  /** Every key of the result is a field some issue names; with the schema's
      own issues this keeps the keys among the record's field names. */
  lemma FirstErrorsKeysWithin(issues: seq<Issue>, fields: set<string>)
    requires forall i :: 0 <= i < |issues| && issues[i].path.Field? ==> issues[i].path.name in fields
    ensures FirstErrors(issues).Keys <= fields
  {
    forall k | k in FirstErrors(issues) ensures k in fields {
      FirstErrorsKeys(issues, k);
    }
  }

  /** Whether the loop copies the entry under `key`: a node whose `_errors`
      is an array with at least one message. The root entry is itself an
      array, whose `_errors` is undefined, so it is never copied. */
  predicate Copied(f: Formatted, key: string)
  {
    key in f.nodes && f.nodes[key].FieldNode? && |f.nodes[key].errors| > 0
  }

  /** What `format()` keeps under a field key agrees with the reference
      meaning: a node exists exactly for the fields with an entry, and its
      first message is that entry. */
  lemma {:induction false} FormatAgrees(issues: seq<Issue>, k: string)
    requires NoReservedField(issues) && k != RootKey
    ensures k in Format(issues).nodes <==> k in FirstErrors(issues)
    ensures k in FirstErrors(issues) ==>
      Copied(Format(issues), k) && Format(issues).nodes[k].errors[0] == FirstErrors(issues)[k]
    decreases |issues|
  {
    if issues != [] {
      var p := issues[..|issues| - 1];
      assert NoReservedField(p) by {
        forall i | 0 <= i < |p| ensures p[i].path != Field(RootKey) {
          assert p[i] == issues[i];
        }
      }
      FormatAgrees(p, k);
    }
  }

  /** `getValidationErrors(schema, data)`, given how `schema.parse(data)` ended:
      the empty map on success and on a foreign exception, otherwise the
      first message of every field the formatted error has an entry for. */
  method GetValidationErrors(outcome: ParseOutcome) returns (fieldErrors: ErrorMap)
    requires outcome.ZodFailure? ==> NoReservedField(outcome.issues)
    ensures fieldErrors == ErrorsOf(outcome)
    ensures !outcome.ZodFailure? ==> fieldErrors == map[]
    ensures RootKey !in fieldErrors
  {
    match outcome {
      case Success =>
        return map[];
      case OtherFailure =>
        return map[];
      case ZodFailure(issues) =>
        var formatted := Format(issues);
        var keys := formatted.keys;
        fieldErrors := map[];
        var i := 0;
        while i < |keys|
          invariant 0 <= i <= |keys|
          invariant forall k :: k in fieldErrors <==> k in keys[..i] && Copied(formatted, k)
          invariant forall k :: k in fieldErrors ==> fieldErrors[k] == formatted.nodes[k].errors[0]
        {
          var key := keys[i];
          var error := formatted.nodes[key];
          if error.FieldNode? && |error.errors| > 0 {
            fieldErrors := fieldErrors[key := error.errors[0]];
          }
          assert keys[..i + 1] == keys[..i] + [key];
          i := i + 1;
        }
        assert keys[..i] == keys;
        forall k ensures k in fieldErrors <==> k in FirstErrors(issues) {
          if k != RootKey {
            FormatAgrees(issues, k);
          } else {
            FirstErrorsKeys(issues, k);
          }
        }
        forall k | k in fieldErrors ensures fieldErrors[k] == FirstErrors(issues)[k] {
          FormatAgrees(issues, k);
        }
    }
  }
}
