/** The browser's FormData as the forms fill it and the server actions read
    it, and the JavaScript coercions the actions apply to what they read:
    `String(flag)` / `=== "true"` for booleans and `value || null` for
    optional text. */
module Forms {
  import opened Types

  /** `String(b)`. */
  function BoolText(b: bool): string {
    if b then "true" else "false"
  }

  /** `formData.get(name) === "true"`: only the exact text "true" counts. */
  predicate IsTrueText(v: Option<string>) {
    v == Some("true")
  }

  /** A flag sent as `String(b)` and read back with `=== "true"` is the
      same flag. */
  lemma {:induction false} BoolRoundTrip(b: bool)
    ensures IsTrueText(Some(BoolText(b))) == b
  {
  }

  /** `(formData.get(name) as string) || null`: an absent field and an
      empty one both become null; any other text is kept. */
  function OrNull(v: Option<string>): (r: Option<string>)
    ensures r.Some? <==> v.Some? && v.value != ""
    ensures r.Some? ==> r == v
  {
    if v.Some? && v.value != "" then v else None
  }

  /** A toast notification shown by a client component. */
  datatype Toast = ToastSuccess(message: string) | ToastError(message: string)

  /** `result.error || fallback`. */
  function ErrorOr(res: ActionResult, fallback: string): string {
    if res.Failure? && res.error != "" then res.error else fallback
  }

  /** Looking up in a concatenation: the first part answers if it can. */
  lemma {:induction false} LookupConcat(a: seq<(string, string)>, b: seq<(string, string)>, name: string)
    ensures Lookup(a + b, name) == if Lookup(a, name).Some? then Lookup(a, name) else Lookup(b, name)
  {
    if a != [] {
      assert (a + b)[1..] == a[1..] + b;
      LookupConcat(a[1..], b, name);
    } else {
      assert a + b == b;
    }
  }

  /** JavaScript truthiness of an optional text. */
  predicate Truthy(v: Option<string>) {
    v.Some? && v.value != ""
  }

  /** The value of the first entry called `name` (FormData.get in the
      XMLHttpRequest Standard, section 5.2), or None. */
  function Lookup(entries: seq<(string, string)>, name: string): Option<string> {
    if entries == [] then None
    else if entries[0].0 == name then Some(entries[0].1)
    else Lookup(entries[1..], name)
  }

  /** Lookup answers None exactly when no entry has the name, and otherwise
      the value of the first entry that has it. */
  lemma {:induction false} LookupFirst(entries: seq<(string, string)>, name: string)
    ensures Lookup(entries, name).None? <==> forall i :: 0 <= i < |entries| ==> entries[i].0 != name
    ensures Lookup(entries, name).Some? ==>
              exists i :: 0 <= i < |entries| && entries[i] == (name, Lookup(entries, name).value)
                          && forall j :: 0 <= j < i ==> entries[j].0 != name
  {
    if entries != [] && entries[0].0 != name {
      var rest := entries[1..];
      LookupFirst(rest, name);
      if Lookup(rest, name).Some? {
        var i :| 0 <= i < |rest| && rest[i] == (name, Lookup(rest, name).value)
                 && forall j :: 0 <= j < i ==> rest[j].0 != name;
        assert entries[i + 1] == (name, Lookup(entries, name).value);
        assert forall j :: 0 <= j < i + 1 ==> entries[j].0 != name by {
          forall j | 0 <= j < i + 1 ensures entries[j].0 != name {
            if j > 0 { assert entries[j] == rest[j - 1]; }
          }
        }
      } else {
        assert forall i :: 0 <= i < |entries| ==> entries[i].0 != name by {
          forall i | 0 <= i < |entries| ensures entries[i].0 != name {
            if i > 0 { assert entries[i] == rest[i - 1]; }
          }
        }
      }
    }
  }

  /** The first entry called `name` answers. */
  lemma {:induction false} LookupAt(entries: seq<(string, string)>, i: nat, name: string)
    requires i < |entries| && entries[i].0 == name
    requires forall j :: 0 <= j < i ==> entries[j].0 != name
    ensures Lookup(entries, name) == Some(entries[i].1)
  {
    if i > 0 {
      LookupAt(entries[1..], i - 1, name);
    }
  }

  /** Appending an entry never changes what an earlier entry of the same
      name answers; a name seen for the first time answers the new value. */
  lemma {:induction false} LookupAppend(entries: seq<(string, string)>, n: string, v: string, name: string)
    ensures Lookup(entries + [(n, v)], name) ==
      if Lookup(entries, name).Some? then Lookup(entries, name)
      else if n == name then Some(v)
      else None
  {
    if entries == [] {
      assert entries + [(n, v)] == [(n, v)];
    } else {
      assert (entries + [(n, v)])[1..] == entries[1..] + [(n, v)];
      LookupAppend(entries[1..], n, v, name);
    }
  }

  /** The form data of one submission: an ordered list of name/value
      entries, appended to in place. */
  class FormData {
    var entries: seq<(string, string)>

    /** `new FormData(form)`: the entries of the form's named controls, in
        document order. */
    constructor (initial: seq<(string, string)>)
      ensures entries == initial
    {
      entries := initial;
    }

    method Append(name: string, value: string)
      modifies this
      ensures entries == old(entries) + [(name, value)]
    {
      entries := entries + [(name, value)];
    }

    function Get(name: string): Option<string>
      reads this
    {
      Lookup(entries, name)
    }
  }
}
