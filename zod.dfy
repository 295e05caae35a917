/** The part of the Zod validation library the forms rely on: the issues a
    failed parse reports, the outcome of `schema.parse`, and the object that
    `ZodError.format()` builds from the issues. Only flat object schemas are
    modelled, so an issue is either about the whole record or about one field. */
module Zod {

  /** The key under which `format()` keeps the messages of a node itself. */
  const RootKey: string := "_errors"

  /** Where an issue points: the record as a whole, or one top-level field. */
  datatype Path = Root | Field(name: string)

  datatype Issue = Issue(path: Path, message: string)

  /** What `schema.parse(data)` does: return normally, throw a `ZodError`
      carrying its issues in the order the checks ran, or throw something else. */
  datatype ParseOutcome = Success | ZodFailure(issues: seq<Issue>) | OtherFailure

  /** A field check: no issue when it passes, one issue on `field` when it fails. */
  function Check(ok: bool, field: string, message: string): (r: seq<Issue>)
    ensures ok <==> r == []
    ensures !ok ==> r == [Issue(Field(field), message)]
  {
    if ok then [] else [Issue(Field(field), message)]
  }

  /** One check of a schema run on a record: whether it passed, and the field
      and message it reports when it fails. */
  datatype Rule = Rule(ok: bool, field: string, message: string)

  /** The issues a schema's checks report, run in order, each failing check
      adding its own issue after those of the checks before it. */
  function Issues(rules: seq<Rule>): (r: seq<Issue>)
    ensures r == [] <==> forall j :: 0 <= j < |rules| ==> rules[j].ok
    decreases |rules|
  {
    if rules == [] then []
    else
      var last := rules[|rules| - 1];
      Issues(rules[..|rules| - 1]) + Check(last.ok, last.field, last.message)
  }

  /** `issue` is the one `rule` reports: the check failed, and the issue is
      on its field with its message. */
  predicate Reports(rule: Rule, issue: Issue)
  {
    !rule.ok && issue == Issue(Field(rule.field), rule.message)
  }

  /** Every issue comes from a failing check. */
  lemma {:induction false} IssuesFromRules(rules: seq<Rule>, i: int)
    requires 0 <= i < |Issues(rules)|
    ensures exists j :: 0 <= j < |rules| && Reports(rules[j], Issues(rules)[i])
    decreases |rules|
  {
    var prefix, last := rules[..|rules| - 1], rules[|rules| - 1];
    if i < |Issues(prefix)| {
      IssuesFromRules(prefix, i);
      var j :| 0 <= j < |prefix| && Reports(prefix[j], Issues(prefix)[i]);
      assert prefix[j] == rules[j];
    } else {
      assert Issues(rules)[i] == Issue(Field(last.field), last.message);
    }
  }

  /** `parse` throws exactly when some check reported an issue. */
  function Parse(issues: seq<Issue>): (r: ParseOutcome)
    ensures r.Success? <==> issues == []
    ensures r.ZodFailure? ==> r.issues == issues
    ensures !r.OtherFailure?
  {
    if issues == [] then Success else ZodFailure(issues)
  }

  /** A value in the object `format()` returns: the root entry is the list
      of whole-record messages, every field entry holds its own `_errors` list. */
  datatype FormatNode = ErrorList(messages: seq<string>) | FieldNode(errors: seq<string>)

  /** The formatted error object: its own keys in insertion order, which is
      what `Object.keys` lists for the forms' non-numeric field names, and
      the value under each key. */
  datatype Formatted = Formatted(keys: seq<string>, nodes: map<string, FormatNode>)

  /** No issue points at a field named like the root key; `format()` would
      otherwise push onto the root list's missing `_errors` and throw. */
  predicate NoReservedField(issues: seq<Issue>)
  {
    forall i :: 0 <= i < |issues| ==> issues[i].path != Field(RootKey)
  }

  /** `ZodError.format()` for flat paths: the root key comes first, each field
      key is added the first time an issue names it, and every issue's message
      is appended to the list of the node it points at. */
  function Format(issues: seq<Issue>): (r: Formatted)
    requires NoReservedField(issues)
    ensures RootKey in r.nodes && r.nodes[RootKey].ErrorList?
    ensures forall k :: k in r.nodes && k != RootKey ==> r.nodes[k].FieldNode?
    ensures forall k :: k in r.nodes <==> k in r.keys
    decreases |issues|
  {
    if issues == [] then
      Formatted([RootKey], map[RootKey := ErrorList([])])
    else
      var f := Format(issues[..|issues| - 1]);
      var x := issues[|issues| - 1];
      match x.path
      case Root =>
        f.(nodes := f.nodes[RootKey := ErrorList(f.nodes[RootKey].messages + [x.message])])
      case Field(k) =>
        if k in f.nodes then
          f.(nodes := f.nodes[k := FieldNode(f.nodes[k].errors + [x.message])])
        else
          Formatted(f.keys + [k], f.nodes[k := FieldNode([x.message])])
  }
}
