/** Values shared by the route handlers: optional values, results, thrown
    values, JSON values with JavaScript truthiness, form decoding and the
    field-error map the form-validation adapter builds from schema issues. */
module Common {

  datatype Option<T> = None | Some(value: T)

  datatype Result<T, E> = Ok(value: T) | Err(error: E)

  /** A value thrown by JavaScript code: an `Error` instance carries a
      message; anything else thrown is told apart only by not being one. */
  datatype Thrown = ErrorInstance(message: string) | NonError

  /** The outcome of a call into a collaborator that may throw. */
  datatype Attempt<T> = Returned(value: T) | Threw(thrown: Thrown)

  /** A decoded JSON value. */
  datatype Json =
    | JNull
    | JBool(b: bool)
    | JNumber(n: real)
    | JString(s: string)
    | JArray(items: seq<Json>)
    | JObject(fields: map<string, Json>)

  /** JavaScript truthiness of a JSON value. */
  predicate Truthy(v: Json)
  {
    match v
    case JNull => false
    case JBool(b) => b
    case JNumber(n) => n != 0.0
    case JString(s) => s != ""
    case JArray(_) => true
    case JObject(_) => true
  }

  /** A form field as submitted: its name and its (textual) value. */
  type Entry = (string, string)

  /** A decoded form: each field name with its value. */
  type Form = map<string, string>

  /** The schema library's message for a missing field. */
  const Required := "Required"

  /** JavaScript's `String.length`: the number of UTF-16 code units, two for
      a character outside the Basic Multilingual Plane and one otherwise. */
  function Utf16Length(s: string): (n: nat)
    ensures |s| <= n <= 2 * |s|
  {
    if s == [] then 0 else (if s[0] as int >= 0x1_0000 then 2 else 1) + Utf16Length(s[1..])
  }

  /** `Object.fromEntries`: a later entry for the same name overwrites an
      earlier one. */
  function FromEntries(entries: seq<Entry>): map<string, string>
  {
    if entries == [] then map[]
    else FromEntries(entries[..|entries| - 1])[entries[|entries| - 1].0 := entries[|entries| - 1].1]
  }

  /** The decoded form holds exactly the submitted names, each with the value
      of the LAST entry carrying that name. */
  lemma {:induction false} FromEntriesLastWins(entries: seq<Entry>, k: string)
    ensures k in FromEntries(entries) <==> exists i :: 0 <= i < |entries| && entries[i].0 == k
    ensures k in FromEntries(entries) ==>
      exists i :: 0 <= i < |entries| && entries[i].0 == k && FromEntries(entries)[k] == entries[i].1 &&
        forall j :: i < j < |entries| ==> entries[j].0 != k
  {
    if entries != [] {
      var n := |entries| - 1;
      var init := entries[..n];
      FromEntriesLastWins(init, k);
      assert forall i :: 0 <= i < n ==> init[i] == entries[i];
      if entries[n].0 != k && k in FromEntries(entries) {
        var i :| 0 <= i < n && init[i].0 == k && FromEntries(init)[k] == init[i].1 &&
          forall j :: i < j < n ==> init[j].0 != k;
        assert entries[i].0 == k && FromEntries(entries)[k] == entries[i].1;
      }
    }
  }

  /** One problem the schema validator found with one input path. */
  datatype Issue = Issue(path: string, message: string)

  /** The adapter keeps, per path, the first issue whose message is
      non-empty (`if (!fieldErrors[path]) fieldErrors[path] = message`). */
  function AddIssue(acc: map<string, string>, issue: Issue): map<string, string>
  {
    if issue.path in acc && acc[issue.path] != "" then acc else acc[issue.path := issue.message]
  }

  function CollectIssues(acc: map<string, string>, issues: seq<Issue>): map<string, string>
    decreases |issues|
  {
    if issues == [] then acc else CollectIssues(AddIssue(acc, issues[0]), issues[1..])
  }

  /** The field-error map reported for a list of issues. */
  function FieldErrors(issues: seq<Issue>): map<string, string>
  {
    CollectIssues(map[], issues)
  }

  /** Index of the first issue on `path` (if any). */
  function FirstOn(issues: seq<Issue>, path: string): (i: nat)
    ensures i <= |issues|
    ensures i < |issues| ==> issues[i].path == path
    ensures forall j :: 0 <= j < i ==> issues[j].path != path
  {
    if issues == [] then 0
    else if issues[0].path == path then 0
    else 1 + FirstOn(issues[1..], path)
  }

  predicate MessagesNonEmpty(issues: seq<Issue>)
  {
    forall i :: 0 <= i < |issues| ==> issues[i].message != ""
  }

  lemma {:induction false} CollectIssuesFirst(acc: map<string, string>, issues: seq<Issue>, path: string)
    requires MessagesNonEmpty(issues)
    requires forall p :: p in acc ==> acc[p] != ""
    ensures var m := CollectIssues(acc, issues); var i := FirstOn(issues, path);
      && (path in m <==> path in acc || i < |issues|)
      && (path in acc ==> m[path] == acc[path])
      && (path !in acc && i < |issues| ==> m[path] == issues[i].message)
    decreases |issues|
  {
    if issues != [] {
      var acc' := AddIssue(acc, issues[0]);
      assert MessagesNonEmpty(issues[1..]) by {
        forall i | 0 <= i < |issues[1..]| ensures issues[1..][i].message != "" {
          assert issues[1..][i] == issues[i + 1];
        }
      }
      CollectIssuesFirst(acc', issues[1..], path);
    }
  }

  /** A path has a field error iff some issue names it, and the message shown
      for it is that of the first issue naming it. */
  lemma FieldErrorsFirst(issues: seq<Issue>, path: string)
    requires MessagesNonEmpty(issues)
    ensures path in FieldErrors(issues) <==> FirstOn(issues, path) < |issues|
    ensures path in FieldErrors(issues) ==> FieldErrors(issues)[path] == issues[FirstOn(issues, path)].message
  {
    CollectIssuesFirst(map[], issues, path);
  }

  /** `FirstOn` over a concatenation looks in the second part only when the
      first has no issue on the path. */
  lemma {:induction false} FirstOnAppend(a: seq<Issue>, b: seq<Issue>, path: string)
    ensures FirstOn(a + b, path) == if FirstOn(a, path) < |a| then FirstOn(a, path) else |a| + FirstOn(b, path)
  {
    if a != [] {
      assert (a + b)[0] == a[0] && (a + b)[1..] == a[1..] + b;
      FirstOnAppend(a[1..], b, path);
      if a[0].path != path {
        assert FirstOn(a + b, path) == 1 + FirstOn(a[1..] + b, path);
      }
    } else {
      assert a + b == b;
    }
  }

  predicate Distinct(fields: seq<string>)
  {
    forall i, j :: 0 <= i < j < |fields| ==> fields[i] != fields[j]
  }

  /** The issues an object schema reports, field by field in the schema's
      order: one issue for each field that `problem` faults. */
  function IssuesFor(problem: string -> Option<string>, fields: seq<string>): seq<Issue>
  {
    if fields == [] then []
    else
      FieldIssue(problem, fields[0]) + IssuesFor(problem, fields[1..])
  }

  lemma DistinctTail(fields: seq<string>)
    requires fields != [] && Distinct(fields)
    ensures Distinct(fields[1..]) && fields[0] !in fields[1..]
  {
    forall i, j | 0 <= i < j < |fields[1..]| ensures fields[1..][i] != fields[1..][j] {
      assert fields[1..][i] == fields[i + 1] && fields[1..][j] == fields[j + 1];
    }
    forall k | 0 <= k < |fields[1..]| ensures fields[1..][k] != fields[0] {
      assert fields[1..][k] == fields[k + 1];
    }
  }

  /** The issues one field contributes. */
  function FieldIssue(problem: string -> Option<string>, field: string): seq<Issue>
  {
    match problem(field) case None => [] case Some(m) => [Issue(field, m)]
  }

  /** On a list of distinct fields, the first issue on a path exists exactly
      when that field is faulted, and it carries the field's message. */
  lemma {:induction false} IssuesForFirst(problem: string -> Option<string>, fields: seq<string>, path: string)
    requires Distinct(fields)
    ensures FirstOn(IssuesFor(problem, fields), path) < |IssuesFor(problem, fields)| <==> path in fields && problem(path).Some?
    ensures FirstOn(IssuesFor(problem, fields), path) < |IssuesFor(problem, fields)| ==>
      IssuesFor(problem, fields)[FirstOn(IssuesFor(problem, fields), path)].message == problem(path).value
  {
    if fields != [] {
      var head := FieldIssue(problem, fields[0]);
      var tail := IssuesFor(problem, fields[1..]);
      assert IssuesFor(problem, fields) == head + tail;
      DistinctTail(fields);
      IssuesForFirst(problem, fields[1..], path);
      FirstOnAppend(head, tail, path);
      assert path in fields <==> path == fields[0] || path in fields[1..];
    }
  }

  lemma {:induction false} IssuesForMessages(problem: string -> Option<string>, fields: seq<string>)
    requires forall f :: problem(f).Some? ==> problem(f).value != ""
    ensures MessagesNonEmpty(IssuesFor(problem, fields))
  {
    if fields != [] {
      IssuesForMessages(problem, fields[1..]);
    }
  }
}
