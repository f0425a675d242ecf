/** Raw values as a YAML or JSON decoder hands them to the library: Python's `None`,
    `bool`, `int`, `str`, `list` and `dict`. */
module RawJson {
  import opened Wrappers

  /** A dict is an ordered sequence of (key, value) entries, because Python dicts keep
      insertion order and the dependency decoder dispatches on the first key. A dict
      decoded from a document has distinct keys; lookups take the first entry with a key. */
  datatype Raw =
    | Null
    | Bool(b: bool)
    | Num(n: int)
    | Str(s: string)
    | List(items: seq<Raw>)
    | Obj(entries: seq<(string, Raw)>)

  /** Python truthiness: `None`, `False`, `0`, `""`, `[]` and `{}` are false. */
  predicate Truthy(v: Raw) {
    match v
    case Null => false
    case Bool(b) => b
    case Num(n) => n != 0
    case Str(s) => s != ""
    case List(items) => items != []
    case Obj(entries) => entries != []
  }

  function Keys(entries: seq<(string, Raw)>): set<string> {
    set i | 0 <= i < |entries| :: entries[i].0
  }

  /** The keys of a two-entry dict. */
  lemma KeysOfPair(a: (string, Raw), b: (string, Raw))
    ensures Keys([a, b]) == {a.0, b.0}
  {
    assert [a, b][0] == a && [a, b][1] == b;
  }

  /** The keys of a dict are those of its entries but the last, plus the last one's. */
  lemma KeysOfInit(entries: seq<(string, Raw)>)
    requires entries != []
    ensures Keys(entries) == Keys(entries[..|entries| - 1]) + {entries[|entries| - 1].0}
  {
    var n := |entries| - 1;
    forall k | k in Keys(entries) ensures k in Keys(entries[..n]) + {entries[n].0} {
      var i :| 0 <= i < |entries| && entries[i].0 == k;
      if i < n { assert entries[..n][i].0 == k; }
    }
    forall k | k in Keys(entries[..n]) ensures k in Keys(entries) {
      var i :| 0 <= i < n && entries[..n][i].0 == k;
      assert entries[i].0 == k;
    }
  }

  /** No later entry has the same key as entry `i`: a dict built by a comprehension
      over the entries maps that key to what entry `i` gives. */
  predicate LastWithKey(entries: seq<(string, Raw)>, i: int)
    requires 0 <= i < |entries|
  {
    forall j | i < j < |entries| :: entries[j].0 != entries[i].0
  }

  /** An entry that is the last with its key, and not the last entry, is the last with
      its key among the entries but the last, and its key is not the last one's. */
  lemma LastWithKeyInit(entries: seq<(string, Raw)>, i: int)
    requires 0 <= i < |entries| - 1 && LastWithKey(entries, i)
    ensures LastWithKey(entries[..|entries| - 1], i)
    ensures entries[i].0 != entries[|entries| - 1].0
  {
    var init := entries[..|entries| - 1];
    forall j | i < j < |init| ensures init[j].0 != init[i].0 {
      assert init[j] == entries[j] && init[i] == entries[i];
    }
  }

  /** `d.get(key)`: the value of the first entry with that key, or `None`. */
  function Lookup(entries: seq<(string, Raw)>, key: string): (r: Option<Raw>)
    ensures r.None? <==> key !in Keys(entries)
  {
    if entries == [] then None
    else if entries[0].0 == key then Some(entries[0].1)
    else
      assert Keys(entries) == {entries[0].0} + Keys(entries[1..]) by {
        forall k | k in Keys(entries) ensures k in {entries[0].0} + Keys(entries[1..]) {
          var i :| 0 <= i < |entries| && entries[i].0 == k;
          if i > 0 { assert entries[1..][i - 1].0 == k; }
        }
      }
      Lookup(entries[1..], key)
  }

  /** `Lookup` finds the first entry with the key. */
  lemma {:induction false} LookupFindsFirst(entries: seq<(string, Raw)>, key: string, i: int)
    requires 0 <= i < |entries| && entries[i].0 == key
    requires forall j | 0 <= j < i :: entries[j].0 != key
    ensures Lookup(entries, key) == Some(entries[i].1)
  {
    if i > 0 {
      LookupFindsFirst(entries[1..], key, i - 1);
    }
  }

  /** A key that is present with a truthy value: what `if d.get(key):` tests. */
  predicate TruthyAt(entries: seq<(string, Raw)>, key: string) {
    var v := Lookup(entries, key);
    v.Some? && Truthy(v.value)
  }

  /** The string under `key`, when there is one. */
  function StrAt(entries: seq<(string, Raw)>, key: string): (r: Option<string>)
    ensures r.Some? <==> Lookup(entries, key).Some? && Lookup(entries, key).value.Str?
    ensures r.Some? ==> Lookup(entries, key) == Some(Str(r.value))
  {
    match Lookup(entries, key)
    case Some(Str(s)) => Some(s)
    case _ => None
  }

  /** `d.get(key)`: the value under `key`, or `None` when the dict has no such key. */
  function Get(entries: seq<(string, Raw)>, key: string): (r: Raw)
    ensures key !in Keys(entries) ==> r == Null
    ensures key in Keys(entries) ==> Lookup(entries, key) == Some(r)
  {
    match Lookup(entries, key)
    case Some(v) => v
    case None => Null
  }

  /** Adding an entry under another key leaves every lookup as it was. */
  lemma {:induction false} LookupAppendOther(entries: seq<(string, Raw)>, entry: (string, Raw), key: string)
    requires entry.0 != key
    ensures Lookup(entries + [entry], key) == Lookup(entries, key)
    decreases |entries|
  {
    if entries != [] {
      assert (entries + [entry])[1..] == entries[1..] + [entry];
      LookupAppendOther(entries[1..], entry, key);
    }
  }

  /** Decimal digits of a natural number. */
  function Digits(n: nat): string
    decreases n
  {
    var d := ['0', '1', '2', '3', '4', '5', '6', '7', '8', '9'][n % 10];
    if n < 10 then [d] else Digits(n / 10) + [d]
  }

  /** Python's `str(v)` for a scalar; `None` for lists and dicts, whose printed
      form the model does not render. */
  function PyStr(v: Raw): (r: Option<string>)
    ensures v.Str? ==> r == Some(v.s)
    ensures r.None? <==> v.List? || v.Obj?
  {
    match v
    case Null => Some("None")
    case Bool(b) => Some(if b then "True" else "False")
    case Num(n) => Some(if n < 0 then "-" + Digits(-n) else Digits(n))
    case Str(s) => Some(s)
    case _ => None
  }

  /** `{k: f(v) for k, v in d.items()}` where `f` may raise: every key of the dict, each
      mapped to what `f` gives for its value; the first entry `f` fails on fails the
      whole comprehension. */
  function MapEntries<V(==), E(==)>(entries: seq<(string, Raw)>, f: Raw -> Result<V, E>): (r: Result<map<string, V>, E>)
    ensures r.Ok? <==> forall i | 0 <= i < |entries| :: f(entries[i].1).Ok?
    ensures r.Ok? ==> r.value.Keys == Keys(entries)
    ensures r.Ok? ==> forall i | 0 <= i < |entries| && LastWithKey(entries, i) ::
      f(entries[i].1) == Ok(r.value[entries[i].0])
    ensures r.Err? ==> exists i | 0 <= i < |entries| ::
      (f(entries[i].1) == Err(r.error) && forall j | 0 <= j < i :: f(entries[j].1).Ok?)
    decreases |entries|
  {
    if entries == [] then Ok(map[])
    else
      var n := |entries| - 1;
      var init := MapEntries(entries[..n], f);
      if init.Err? then
        var i :| 0 <= i < n && f(entries[..n][i].1) == Err(init.error)
          && forall j | 0 <= j < i :: f(entries[..n][j].1).Ok?;
        assert entries[..n][i] == entries[i];
        assert forall j | 0 <= j < i :: entries[..n][j] == entries[j];
        assert f(entries[i].1) == Err(init.error) && forall j | 0 <= j < i :: f(entries[j].1).Ok?;
        Err(init.error)
      else
        var v := f(entries[n].1);
        if v.Err? then
          assert forall j | 0 <= j < n :: entries[..n][j] == entries[j];
          assert f(entries[n].1) == Err(v.error) && forall j | 0 <= j < n :: f(entries[j].1).Ok?;
          Err(v.error)
        else
          MapEntriesStep(entries, entries[..n], f, init.value, v.value);
          Ok(init.value[entries[n].0 := v.value])
  }

  /** One step of the comprehension: adding the last entry's image to the map built from
      the others gives the whole dict's keys and values. */
  lemma MapEntriesStep<V, E>(entries: seq<(string, Raw)>, prefix: seq<(string, Raw)>, f: Raw -> Result<V, E>,
                             init: map<string, V>, v: V)
    requires entries != [] && prefix == entries[..|entries| - 1]
    requires forall i | 0 <= i < |prefix| :: f(prefix[i].1).Ok?
    requires init.Keys == Keys(prefix)
    requires forall i | 0 <= i < |prefix| && LastWithKey(prefix, i) :: f(prefix[i].1) == Ok(init[prefix[i].0])
    requires f(entries[|entries| - 1].1) == Ok(v)
    ensures forall i | 0 <= i < |entries| :: f(entries[i].1).Ok?
    ensures init[entries[|entries| - 1].0 := v].Keys == Keys(entries)
    ensures forall i | 0 <= i < |entries| && LastWithKey(entries, i) ::
      f(entries[i].1) == Ok(init[entries[|entries| - 1].0 := v][entries[i].0])
  {
    var n := |entries| - 1;
    var r := init[entries[n].0 := v];
    KeysOfInit(entries);
    forall i | 0 <= i < |entries| ensures f(entries[i].1).Ok? {
      if i < n { assert prefix[i] == entries[i]; }
    }
    forall i | 0 <= i < |entries| && LastWithKey(entries, i)
      ensures f(entries[i].1) == Ok(r[entries[i].0])
    {
      if i < n {
        LastWithKeyInit(entries, i);
        assert prefix[i] == entries[i];
        assert f(prefix[i].1) == Ok(init[prefix[i].0]);
      }
    }
  }
}
