/** `formDataToObject`: a multipart body, given as its list of (name, value)
    entries in submission order, becomes a plain object. A name submitted
    once maps to its value; a name submitted several times maps to the list
    of all its values, in submission order. */
module FormData {
  import opened Http

  type Entry = (string, Value)

  /** The names that occur in the form (what `formData.keys()` yields, as a set). */
  function Names(form: seq<Entry>): (names: set<string>)
    ensures forall i :: 0 <= i < |form| ==> form[i].0 in names
    ensures forall k :: k in names ==> exists i :: 0 <= i < |form| && form[i].0 == k
  {
    set i | 0 <= i < |form| :: form[i].0
  }

  /** `formData.getAll(name)`: every value submitted under `name`, in order. */
  function GetAll(form: seq<Entry>, name: string): (vs: seq<Value>)
    ensures |vs| <= |form|
    ensures forall v :: v in vs ==> (name, v) in form
  {
    if form == [] then []
    else (if form[0].0 == name then [form[0].1] else []) + GetAll(form[1..], name)
  }

  /** `formData.get(name)`: the first value submitted under `name`, or null. */
  function Get(form: seq<Entry>, name: string): (v: Value)
    ensures v == if GetAll(form, name) == [] then Null else GetAll(form, name)[0]
  {
    if form == [] then Null
    else if form[0].0 == name then form[0].1
    else Get(form[1..], name)
  }

  /** What the loop body stores under `name`. */
  function Collapse(form: seq<Entry>, name: string): (v: Value)
    ensures |GetAll(form, name)| > 1 ==> v == List(GetAll(form, name))
    ensures |GetAll(form, name)| == 1 ==> v == GetAll(form, name)[0]
    ensures GetAll(form, name) == [] ==> v == Null
  {
    if |GetAll(form, name)| > 1 then List(GetAll(form, name)) else Get(form, name)
  }

  /** The object `formDataToObject` returns. */
  function ToObject(form: seq<Entry>): (obj: map<string, Value>)
    ensures obj.Keys == Names(form)
  {
    map k | k in Names(form) :: Collapse(form, k)
  }

  /** The loop of `formDataToObject`: one pass over the names of the entries,
      each assignment overwriting the slot of its name. */
  method FormDataToObject(form: seq<Entry>) returns (obj: map<string, Value>)
    ensures obj == ToObject(form)
  {
    obj := map[];
    var i := 0;
    while i < |form|
      invariant 0 <= i <= |form|
      invariant obj.Keys == Names(form[..i])
      invariant forall k :: k in obj ==> obj[k] == Collapse(form, k)
    {
      var key := form[i].0;
      var all := GetAll(form, key);
      if |all| > 1 {
        obj := obj[key := List(all)];
      } else {
        obj := obj[key := Get(form, key)];
      }
      assert form[..i + 1] == form[..i] + [form[i]];
      NamesAppend(form[..i], form[i]);
      i := i + 1;
    }
    assert form[..i] == form;
  }

  lemma NamesAppend(form: seq<Entry>, e: Entry)
    ensures Names(form + [e]) == Names(form) + {e.0}
  {
    var both := form + [e];
    forall k | k in Names(both) ensures k in Names(form) + {e.0} {
      var i :| 0 <= i < |both| && both[i].0 == k;
      if i < |form| { assert form[i].0 == k; }
    }
    forall k | k in Names(form) ensures k in Names(both) {
      var i :| 0 <= i < |form| && form[i].0 == k;
      assert both[i].0 == k;
    }
    assert both[|form|].0 == e.0;
  }

  /** No value is dropped: every entry's value is among `getAll` of its name. */
  lemma {:induction false} GetAllComplete(form: seq<Entry>, name: string, v: Value)
    requires (name, v) in form
    ensures v in GetAll(form, name)
  {
    if form[0] != (name, v) {
      assert (name, v) in form[1..];
      GetAllComplete(form[1..], name, v);
    }
  }

  /** A name has values exactly when it occurs in the form. */
  lemma {:induction false} GetAllEmptyIff(form: seq<Entry>, name: string)
    ensures GetAll(form, name) == [] <==> name !in Names(form)
  {
    if name in Names(form) {
      var i :| 0 <= i < |form| && form[i].0 == name;
      assert (name, form[i].1) == form[i];
      GetAllComplete(form, name, form[i].1);
    }
    if GetAll(form, name) != [] {
      var v := GetAll(form, name)[0];
      assert (name, v) in form;
    }
  }

  /** Submission order is kept: an entry appended to the form appends its
      value to `getAll` of its name and changes no other name. */
  lemma {:induction false} GetAllAppend(form: seq<Entry>, e: Entry, name: string)
    ensures GetAll(form + [e], name) == GetAll(form, name) + (if e.0 == name then [e.1] else [])
  {
    if form == [] {
      assert [] + [e] == [e];
    } else {
      assert (form + [e])[1..] == form[1..] + [e];
      GetAllAppend(form[1..], e, name);
    }
  }

  /** A name submitted exactly once has that one value under `getAll`. */
  lemma {:induction false} GetAllUnique(form: seq<Entry>, i: nat)
    requires i < |form|
    requires forall j :: 0 <= j < |form| && j != i ==> form[j].0 != form[i].0
    ensures GetAll(form, form[i].0) == [form[i].1]
  {
    var name := form[i].0;
    if i == 0 {
      assert forall j :: 0 <= j < |form[1..]| ==> form[1..][j].0 != name by {
        forall j | 0 <= j < |form[1..]| ensures form[1..][j].0 != name {
          assert form[1..][j] == form[j + 1];
        }
      }
      GetAllEmptyIff(form[1..], name);
    } else {
      assert form[1..][i - 1] == form[i];
      GetAllUnique(form[1..], i - 1);
    }
  }

  /** A name submitted at two different positions has at least two values. */
  lemma {:induction false} GetAllTwo(form: seq<Entry>, i: nat, j: nat)
    requires i < j < |form| && form[i].0 == form[j].0
    ensures |GetAll(form, form[i].0)| >= 2
  {
    var name := form[i].0;
    if i == 0 {
      assert form[1..][j - 1] == form[j];
      GetAllEmptyIff(form[1..], name);
    } else {
      assert form[1..][i - 1] == form[i] && form[1..][j - 1] == form[j];
      GetAllTwo(form[1..], i - 1, j - 1);
    }
  }

  /** The object has exactly the names of the form as keys. */
  lemma ObjectKeys(form: seq<Entry>, name: string)
    ensures name in ToObject(form) <==> exists i :: 0 <= i < |form| && form[i].0 == name
  {
  }

  /** A name with exactly one entry maps to that entry's value. */
  lemma ObjectSingle(form: seq<Entry>, i: nat)
    requires i < |form|
    requires forall j :: 0 <= j < |form| && j != i ==> form[j].0 != form[i].0
    ensures form[i].0 in ToObject(form) && ToObject(form)[form[i].0] == form[i].1
  {
    GetAllUnique(form, i);
  }

  /** A name with more than one entry maps to the full ordered list of its values. */
  lemma ObjectMultiple(form: seq<Entry>, i: nat, j: nat)
    requires i < j < |form| && form[i].0 == form[j].0
    ensures form[i].0 in ToObject(form)
    ensures ToObject(form)[form[i].0] == List(GetAll(form, form[i].0))
  {
    GetAllTwo(form, i, j);
  }
}
