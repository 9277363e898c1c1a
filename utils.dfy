/** The helpers of app/utils.py: the Python values `jsonify` converts, the
    `DataStorage` key-value checkpoint file, and the `async_retry` wrapper. */
module Utils {
  import opened Wrappers
  import opened PyStr

  // ---------------------------------------------------------------------------
  // Python values and jsonify
  // ---------------------------------------------------------------------------

  /** One `key: value` item of a dict, in insertion order. */
  datatype Entry = Entry(key: PyValue, value: PyValue)

  /** The Python values `jsonify` distinguishes. A set is given by its elements
      in iteration order; a float appears only as a money amount in hundredths;
      dates and datetimes are naive. */
  datatype PyValue =
    | PyNone
    | PyBool(b: bool)
    | PyInt(i: int)
    | PyMoney(hundredths: int)
    | PyStr(s: string)
    | PyList(items: seq<PyValue>)
    | PyTuple(items: seq<PyValue>)
    | PySet(items: seq<PyValue>)
    | PyDict(entries: seq<Entry>)
    | PyDate(year: nat, month: nat, day: nat)
    | PyDateTime(year: nat, month: nat, day: nat, hour: nat, minute: nat, second: nat, microsecond: nat)
    | PyEnum(name: string, value: PyValue)

  /** Whether `hash()` accepts the value: lists, sets and dicts are unhashable,
      a tuple is hashable when its items are. */
  predicate Hashable(v: PyValue) {
    match v
    case PyList(_) => false
    case PySet(_) => false
    case PyDict(_) => false
    case PyTuple(items) => forall i | 0 <= i < |items| :: Hashable(items[i])
    case _ => true
  }

  predicate DistinctKeys(d: seq<Entry>) {
    forall i, j | 0 <= i < j < |d| :: d[i].key != d[j].key
  }

  function KeysOf(d: seq<Entry>): set<PyValue> {
    set i | 0 <= i < |d| :: d[i].key
  }

  /** The first position of `k` among the keys of `d`. */
  function KeyIndex(d: seq<Entry>, k: PyValue): (r: Option<nat>)
    ensures r.Some? ==> r.value < |d| && d[r.value].key == k
    ensures r.Some? ==> forall j | 0 <= j < r.value :: d[j].key != k
    ensures r.None? ==> k !in KeysOf(d)
  {
    if d == [] then None
    else if d[0].key == k then Some(0)
    else match KeyIndex(d[1..], k)
      case Some(i) => Some(i + 1)
      case None => (assert KeysOf(d) == {d[0].key} + KeysOf(d[1..]); None)
  }

  /** `d[k] = v` on a dict: afterwards `k` maps to `v`; an existing key keeps
      its position and every other entry stays as it was; a new key goes last. */
  function DictInsert(d: seq<Entry>, k: PyValue, v: PyValue): (r: seq<Entry>)
    ensures KeysOf(r) == KeysOf(d) + {k}
    ensures DistinctKeys(d) ==> DistinctKeys(r)
    ensures KeyIndex(r, k).Some? && r[KeyIndex(r, k).value] == Entry(k, v)
    ensures k in KeysOf(d) ==>
      (KeyIndex(r, k) == KeyIndex(d, k) && |r| == |d| &&
       forall j | 0 <= j < |d| && j != KeyIndex(d, k).value :: r[j] == d[j])
    ensures k !in KeysOf(d) ==> r == d + [Entry(k, v)]
  {
    match KeyIndex(d, k)
    case Some(i) =>
      var r := d[i := Entry(k, v)];
      assert KeysOf(r) == KeysOf(d) by {
        forall x | x in KeysOf(d) ensures x in KeysOf(r) {
          var j :| 0 <= j < |d| && d[j].key == x;
          assert r[j].key == x;
        }
      }
      assert KeyIndex(r, k) == Some(i) by {
        assert r[i].key == k;
      }
      r
    case None =>
      var r := d + [Entry(k, v)];
      assert KeyIndex(r, k) == Some(|d|) by {
        assert r[|d|].key == k;
      }
      assert KeysOf(r) == KeysOf(d) + {k} by {
        assert r[|d|].key == k;
        forall x | x in KeysOf(d) ensures x in KeysOf(r) {
          var j :| 0 <= j < |d| && d[j].key == x;
          assert r[j].key == x;
        }
      }
      r
  }

  /** A dict comprehension over `items`, inserted left to right. */
  function DictBuild(items: seq<Entry>): (r: seq<Entry>)
    ensures DistinctKeys(r)
    ensures KeysOf(r) == KeysOf(items)
  {
    if items == [] then []
    else
      var init, last := items[..|items| - 1], items[|items| - 1];
      var r := DictInsert(DictBuild(init), last.key, last.value);
      assert KeysOf(items) == KeysOf(init) + {last.key} by {
        forall x | x in KeysOf(init) ensures x in KeysOf(items) {
          var j :| 0 <= j < |init| && init[j].key == x;
          assert items[j].key == x;
        }
      }
      r
  }

  /** `date.isoformat()` */
  function IsoDate(year: nat, month: nat, day: nat): string {
    Pad(year, 4) + "-" + Pad(month, 2) + "-" + Pad(day, 2)
  }

  /** `datetime.isoformat()` for a naive datetime: microseconds only when non-zero. */
  function IsoDateTime(year: nat, month: nat, day: nat, hour: nat, minute: nat, second: nat, microsecond: nat): string {
    IsoDate(year, month, day) + "T" + Pad(hour, 2) + ":" + Pad(minute, 2) + ":" + Pad(second, 2) +
    (if microsecond != 0 then "." + Pad(microsecond, 6) else "")
  }

  /** What `jsonify` returns, when it returns. */
  function Jsonify(v: PyValue): PyValue {
    match v
    case PyList(items) => PyList(seq(|items|, i requires 0 <= i < |items| => Jsonify(items[i])))
    case PyTuple(items) => PyList(seq(|items|, i requires 0 <= i < |items| => Jsonify(items[i])))
    case PySet(items) => PyList(seq(|items|, i requires 0 <= i < |items| => Jsonify(items[i])))
    case PyDict(entries) =>
      PyDict(DictBuild(seq(|entries|, i requires 0 <= i < |entries| =>
        Entry(Jsonify(entries[i].key), Jsonify(entries[i].value)))))
    case PyDate(y, m, d) => PyStr(IsoDate(y, m, d))
    case PyDateTime(y, m, d, hh, mm, ss, us) => PyStr(IsoDateTime(y, m, d, hh, mm, ss, us))
    case PyEnum(_, value) => value
    case _ => v
  }

  /** Whether `jsonify` raises `TypeError`: somewhere a dict key converts to an
      unhashable value (a tuple key becomes a list, for one). */
  predicate JsonifyRaises(v: PyValue) {
    match v
    case PyList(items) => exists i | 0 <= i < |items| :: JsonifyRaises(items[i])
    case PyTuple(items) => exists i | 0 <= i < |items| :: JsonifyRaises(items[i])
    case PySet(items) => exists i | 0 <= i < |items| :: JsonifyRaises(items[i])
    case PyDict(entries) =>
      exists i | 0 <= i < |entries| ::
        JsonifyRaises(entries[i].key) || JsonifyRaises(entries[i].value) || !Hashable(Jsonify(entries[i].key))
    case _ => false
  }

  datatype JsonifyError = UnhashableKey

  /** `jsonify(v)`, raising included. */
  function JsonifyChecked(v: PyValue): (r: Result<PyValue, JsonifyError>)
    ensures r.Err? <==> JsonifyRaises(v)
    ensures r.Ok? ==> r.value == Jsonify(v)
  {
    if JsonifyRaises(v) then Err(UnhashableKey) else Ok(Jsonify(v))
  }

  /** Keys `json.dumps` accepts as they are. */
  predicate IsJsonKey(v: PyValue) {
    v.PyNone? || v.PyBool? || v.PyInt? || v.PyMoney? || v.PyStr?
  }

  /** Values made only of what `json.dumps` writes directly: scalars, lists,
      and dicts with distinct scalar keys. */
  predicate IsJson(v: PyValue) {
    match v
    case PyList(items) => forall i | 0 <= i < |items| :: IsJson(items[i])
    case PyDict(entries) =>
      DistinctKeys(entries) &&
      forall i | 0 <= i < |entries| :: IsJsonKey(entries[i].key) && IsJson(entries[i].value)
    case _ => IsJsonKey(v)
  }

  /** Every enum inside `v` (through lists, tuples, sets and dicts) has a JSON value. */
  predicate EnumsPlain(v: PyValue) {
    match v
    case PyList(items) => forall i | 0 <= i < |items| :: EnumsPlain(items[i])
    case PyTuple(items) => forall i | 0 <= i < |items| :: EnumsPlain(items[i])
    case PySet(items) => forall i | 0 <= i < |items| :: EnumsPlain(items[i])
    case PyDict(entries) =>
      forall i | 0 <= i < |entries| :: EnumsPlain(entries[i].key) && EnumsPlain(entries[i].value)
    case PyEnum(_, value) => IsJson(value)
    case _ => true
  }

  /** A dict comprehension over items with distinct keys rebuilds the same items. */
  lemma {:induction false} DictBuildDistinct(items: seq<Entry>)
    requires DistinctKeys(items)
    ensures DictBuild(items) == items
  {
    if items != [] {
      var init, last := items[..|items| - 1], items[|items| - 1];
      DictBuildDistinct(init);
      assert last.key !in KeysOf(init) by {
        forall j | 0 <= j < |init| ensures init[j].key != last.key {
          assert init[j] == items[j];
        }
      }
      assert init + [last] == items;
    }
  }

  /** jsonify's promise, constructor by constructor: lists, tuples and sets
      become lists of the converted items in the same order; a dict becomes a
      dict whose keys are exactly the converted keys, each once, whose entries
      are converted items, and where the last item of each converted key wins;
      dates and datetimes become their ISO string; an enum becomes its value,
      not converted further; any other value is returned as it is. */
  lemma JsonifyShape(v: PyValue)
    ensures (v.PyList? || v.PyTuple? || v.PySet?) ==>
      var r := Jsonify(v);
      r.PyList? && |r.items| == |v.items| &&
      forall i :: 0 <= i < |v.items| ==> r.items[i] == Jsonify(v.items[i])
    ensures v.PyDict? ==>
      var r := Jsonify(v);
      r.PyDict? && DistinctKeys(r.entries) &&
      KeysOf(r.entries) == set i | 0 <= i < |v.entries| :: Jsonify(v.entries[i].key)
    ensures v.PyDict? ==>
      forall e | e in Jsonify(v).entries ::
        exists i | 0 <= i < |v.entries| :: e == Entry(Jsonify(v.entries[i].key), Jsonify(v.entries[i].value))
    ensures v.PyDict? ==>
      forall j | 0 <= j < |v.entries| &&
                 (forall l | j < l < |v.entries| :: Jsonify(v.entries[l].key) != Jsonify(v.entries[j].key)) ::
        Entry(Jsonify(v.entries[j].key), Jsonify(v.entries[j].value)) in Jsonify(v).entries
    ensures v.PyDate? ==> Jsonify(v) == PyStr(IsoDate(v.year, v.month, v.day))
    ensures v.PyDateTime? ==>
      Jsonify(v) == PyStr(IsoDateTime(v.year, v.month, v.day, v.hour, v.minute, v.second, v.microsecond))
    ensures v.PyEnum? ==> Jsonify(v) == v.value
    ensures (IsJsonKey(v) || v.PyNone?) ==> Jsonify(v) == v
  {
    if v.PyDict? {
      JsonifyDictKeys(v);
      JsonifyDictEntries(v);
      JsonifyDictLastWins(v);
    }
  }

  /** The converted items of a dict, in order, before the comprehension
      merges equal keys. */
  function ConvertedItems(entries: seq<Entry>): (items: seq<Entry>)
    ensures |items| == |entries|
    ensures forall i | 0 <= i < |entries| :: items[i] == Entry(Jsonify(entries[i].key), Jsonify(entries[i].value))
  {
    seq(|entries|, i requires 0 <= i < |entries| => Entry(Jsonify(entries[i].key), Jsonify(entries[i].value)))
  }

  /** A converted dict holds each converted key once. */
  lemma JsonifyDictKeys(v: PyValue)
    requires v.PyDict?
    ensures Jsonify(v).PyDict? && DistinctKeys(Jsonify(v).entries)
    ensures KeysOf(Jsonify(v).entries) == set i | 0 <= i < |v.entries| :: Jsonify(v.entries[i].key)
  {
    var es := v.entries;
    var items := ConvertedItems(es);
    assert Jsonify(v) == PyDict(DictBuild(items));
    assert KeysOf(items) == set i | 0 <= i < |es| :: Jsonify(es[i].key) by {
      forall x | x in (set i | 0 <= i < |es| :: Jsonify(es[i].key)) ensures x in KeysOf(items) {
        var j :| 0 <= j < |es| && Jsonify(es[j].key) == x;
        assert items[j].key == x;
      }
    }
  }

  /** Every entry of a converted dict is a converted item. */
  lemma JsonifyDictEntries(v: PyValue)
    requires v.PyDict?
    ensures forall e | e in Jsonify(v).entries ::
      exists i | 0 <= i < |v.entries| :: e == Entry(Jsonify(v.entries[i].key), Jsonify(v.entries[i].value))
  {
    var es := v.entries;
    var items := ConvertedItems(es);
    assert Jsonify(v) == PyDict(DictBuild(items));
    DictBuildFrom(items);
    forall e | e in DictBuild(items)
      ensures exists i | 0 <= i < |es| :: e == Entry(Jsonify(es[i].key), Jsonify(es[i].value))
    {
      var i :| 0 <= i < |items| && items[i] == e;
    }
  }

  /** In a converted dict the last item of each converted key wins. */
  lemma JsonifyDictLastWins(v: PyValue)
    requires v.PyDict?
    ensures forall j | 0 <= j < |v.entries| &&
                       (forall l | j < l < |v.entries| :: Jsonify(v.entries[l].key) != Jsonify(v.entries[j].key)) ::
      Entry(Jsonify(v.entries[j].key), Jsonify(v.entries[j].value)) in Jsonify(v).entries
  {
    var es := v.entries;
    var items := ConvertedItems(es);
    assert Jsonify(v) == PyDict(DictBuild(items));
    DictBuildLastWins(items);
    forall j | 0 <= j < |es| && (forall l | j < l < |es| :: Jsonify(es[l].key) != Jsonify(es[j].key))
      ensures items[j] in DictBuild(items)
    {
      forall l | j < l < |items| ensures items[l].key != items[j].key {
      }
    }
  }

  lemma JsonKeyHashable(v: PyValue)
    requires IsJson(v) && Hashable(v)
    ensures IsJsonKey(v)
  {
  }

  /** A dict with a tuple key makes jsonify raise: the key becomes a list,
      which a dict cannot be keyed by. */
  lemma TupleKeyRaises(entries: seq<Entry>, i: nat)
    requires i < |entries| && entries[i].key.PyTuple?
    ensures JsonifyRaises(PyDict(entries))
    ensures JsonifyChecked(PyDict(entries)) == Err(UnhashableKey)
  {
    assert !Hashable(Jsonify(entries[i].key));
  }

  /** JSON values are fixed points: jsonify does not raise on them and returns
      them unchanged. */
  lemma {:induction false} JsonifyFixesJson(v: PyValue)
    requires IsJson(v)
    ensures !JsonifyRaises(v) && Jsonify(v) == v
    decreases v, 1
  {
    match v
    case PyList(items) =>
      forall i | 0 <= i < |items| ensures !JsonifyRaises(items[i]) && Jsonify(items[i]) == items[i] {
        JsonifyFixesJson(items[i]);
      }
      assert seq(|items|, i requires 0 <= i < |items| => Jsonify(items[i])) == items;
    case PyDict(_) => JsonifyFixesJsonDict(v);
    case _ =>
  }

  /** The dict case: every key and value is a fixed point, and the keys are
      already distinct, so the rebuilt dict is the same one. */
  lemma {:induction false} JsonifyFixesJsonDict(v: PyValue)
    requires v.PyDict? && IsJson(v)
    ensures !JsonifyRaises(v) && Jsonify(v) == v
    decreases v, 0
  {
    var es := v.entries;
    forall i | 0 <= i < |es|
      ensures !JsonifyRaises(es[i].key) && Jsonify(es[i].key) == es[i].key
      ensures !JsonifyRaises(es[i].value) && Jsonify(es[i].value) == es[i].value
    {
      JsonifyFixesJson(es[i].key);
      JsonifyFixesJson(es[i].value);
    }
    var items := seq(|es|, i requires 0 <= i < |es| => Entry(Jsonify(es[i].key), Jsonify(es[i].value)));
    assert items == es;
    DictBuildDistinct(es);
  }

  /** Whatever jsonify returns without raising is JSON, provided every enum it
      meets has a JSON value (jsonify does not convert enum values further). */
  lemma {:induction false} JsonifyYieldsJson(v: PyValue)
    requires EnumsPlain(v) && !JsonifyRaises(v)
    ensures IsJson(Jsonify(v))
  {
    match v
    case PyList(items) => JsonifyItemsYieldJson(items);
    case PyTuple(items) => JsonifyItemsYieldJson(items);
    case PySet(items) => JsonifyItemsYieldJson(items);
    case PyDict(es) =>
      var items := seq(|es|, i requires 0 <= i < |es| => Entry(Jsonify(es[i].key), Jsonify(es[i].value)));
      forall i | 0 <= i < |items| ensures IsJsonKey(items[i].key) && IsJson(items[i].value) {
        JsonifyYieldsJson(es[i].key);
        JsonifyYieldsJson(es[i].value);
        JsonKeyHashable(Jsonify(es[i].key));
      }
      DictBuildJson(items);
    case PyDate(_, _, _) =>
    case PyDateTime(_, _, _, _, _, _, _) =>
    case PyEnum(_, _) =>
    case _ =>
  }

  lemma {:induction false} JsonifyItemsYieldJson(items: seq<PyValue>)
    requires forall i | 0 <= i < |items| :: EnumsPlain(items[i]) && !JsonifyRaises(items[i])
    ensures forall i | 0 <= i < |items| :: IsJson(Jsonify(items[i]))
  {
    forall i | 0 <= i < |items| ensures IsJson(Jsonify(items[i])) {
      JsonifyYieldsJson(items[i]);
    }
  }

  /** Every entry a dict comprehension keeps comes from one of its items. */
  lemma {:induction false} DictBuildFrom(items: seq<Entry>)
    ensures forall e | e in DictBuild(items) :: e in items
  {
    if items != [] {
      var init, last := items[..|items| - 1], items[|items| - 1];
      DictBuildFrom(init);
      var d := DictBuild(init);
      var r := DictInsert(d, last.key, last.value);
      assert DictBuild(items) == r;
      forall e | e in r ensures e in items {
        if e != last {
          assert e in d by {
            match KeyIndex(d, last.key)
            case Some(i) =>
              assert r == d[i := last];
              var j :| 0 <= j < |r| && r[j] == e;
              assert j != i && r[j] == d[j];
            case None =>
              assert r == d + [last];
          }
          assert e in init;
          assert init <= items;
        }
      }
    }
  }

  /** A later item replaces an earlier one with the same key: the last item
      of each key is an entry of the built dict. */
  lemma {:induction false} DictBuildLastWins(items: seq<Entry>)
    ensures forall j | 0 <= j < |items| && (forall l | j < l < |items| :: items[l].key != items[j].key) ::
      items[j] in DictBuild(items)
  {
    if items != [] {
      var init, last := items[..|items| - 1], items[|items| - 1];
      DictBuildLastWins(init);
      var d := DictBuild(init);
      var r := DictInsert(d, last.key, last.value);
      assert DictBuild(items) == r;
      forall j | 0 <= j < |items| && (forall l | j < l < |items| :: items[l].key != items[j].key)
        ensures items[j] in r
      {
        if j == |items| - 1 {
          assert r[KeyIndex(r, last.key).value] == last;
        } else {
          assert items[j] == init[j];
          assert items[|items| - 1].key != items[j].key;
          forall l | j < l < |init| ensures init[l].key != init[j].key {
            assert init[l] == items[l];
          }
          assert init[j] in d;
          var p :| 0 <= p < |d| && d[p] == init[j];
          if last.key in KeysOf(d) {
            assert r[p] == d[p];
          } else {
            assert r[p] == d[p];
          }
        }
      }
    }
  }

  lemma DictBuildJson(items: seq<Entry>)
    requires forall i | 0 <= i < |items| :: IsJsonKey(items[i].key) && IsJson(items[i].value)
    ensures IsJson(PyDict(DictBuild(items)))
  {
    DictBuildFrom(items);
    var d := DictBuild(items);
    forall i | 0 <= i < |d| ensures IsJsonKey(d[i].key) && IsJson(d[i].value) {
      assert d[i] in items;
    }
  }

  /** On values whose enums are plain, converting twice is converting once. */
  lemma JsonifyIdempotent(v: PyValue)
    requires EnumsPlain(v) && !JsonifyRaises(v)
    ensures !JsonifyRaises(Jsonify(v)) && Jsonify(Jsonify(v)) == Jsonify(v)
  {
    JsonifyYieldsJson(v);
    JsonifyFixesJson(Jsonify(v));
  }

  predicate IsIsoDateShape(s: string) {
    |s| == 10 && s[4] == '-' && s[7] == '-' &&
    AllDigits(s[..4]) && AllDigits(s[5..7]) && AllDigits(s[8..])
  }

  /** Reads back year, month and day from an ISO date string. */
  function ParseIsoDate(s: string): (nat, nat, nat)
    requires IsIsoDateShape(s)
  {
    (DecimalValue(s[..4]), DecimalValue(s[5..7]), DecimalValue(s[8..]))
  }

  /** `date.isoformat()` round-trips for every date Python can hold. */
  lemma IsoDateRoundTrip(year: nat, month: nat, day: nat)
    requires year < 10000 && month < 100 && day < 100
    ensures IsIsoDateShape(IsoDate(year, month, day))
    ensures ParseIsoDate(IsoDate(year, month, day)) == (year, month, day)
  {
    PadRoundTrip(year, 4);
    PadRoundTrip(month, 2);
    PadRoundTrip(day, 2);
    var s := IsoDate(year, month, day);
    assert s[..4] == Pad(year, 4);
    assert s[5..7] == Pad(month, 2);
    assert s[8..] == Pad(day, 2);
  }

  // ---------------------------------------------------------------------------
  // DataStorage
  // ---------------------------------------------------------------------------

  /** The JSON file of processing state. `data` is the in-memory dict, `file`
      the contents last written to disk (None while the file does not exist). */
  class DataStorage {
    var data: map<string, PyValue>
    var file: Option<map<string, PyValue>>

    /** `DataStorage()`: start empty, then read the file if there is one. */
    constructor (file: Option<map<string, PyValue>>)
      ensures this.file == file
      ensures data == if file.Some? then file.value else map[]
    {
      data := map[];
      this.file := file;
      new;
      Read();
    }

    /** `read()`: replace the dict by the file's contents when the file exists. */
    method Read()
      modifies this`data
      ensures data == if file.Some? then file.value else old(data)
    {
      if file.Some? {
        data := file.value;
      }
    }

    /** `get(key, default)` */
    function Get(key: string, default: PyValue): (r: PyValue)
      reads this
      ensures key in data ==> r == data[key]
      ensures key !in data ==> r == default
    {
      if key in data then data[key] else default
    }

    /** `storage[key] = value`: only that key changes. */
    method SetItem(key: string, value: PyValue)
      modifies this`data
      ensures data == old(data)[key := value]
      ensures GetItem(key) == Some(value)
      ensures forall k :: k != key ==> GetItem(k) == old(GetItem(k))
    {
      data := data[key := value];
    }

    /** `storage[key]`; None stands for the `KeyError` it raises. */
    function GetItem(key: string): (r: Option<PyValue>)
      reads this
      ensures r.Some? <==> key in data
      ensures r.Some? ==> r.value == data[key]
    {
      if key in data then Some(data[key]) else None
    }

    /** `save()`: the file now holds exactly the dict. */
    method Save()
      modifies this`file
      ensures file == Some(data)
    {
      file := Some(data);
    }

    /** `__exit__`: saves on every exit of the `with` block, normal or not,
        and lets an exception propagate. */
    method Exit()
      modifies this`file
      ensures file == Some(data)
    {
      Save();
    }
  }

  // ---------------------------------------------------------------------------
  // async_retry
  // ---------------------------------------------------------------------------

  /** What one call of the wrapped operation did. */
  datatype Attempt<+T, +E> = Returned(value: T) | Raised(error: E)

  datatype ConfigError = ValueError(message: string)

  type AttemptLimit = n: int | 1 <= n witness 1

  /** `async_retry(max_attempts)`: building the decorator rejects a limit below
      one before the operation is ever called. */
  function AsyncRetry(maxAttempts: int): (r: Result<AttemptLimit, ConfigError>)
    ensures r.Ok? <==> 1 <= maxAttempts
    ensures r.Ok? ==> r.value == maxAttempts
    ensures r.Err? ==> r.error == ValueError("attempts must be 1 or more")
  {
    if maxAttempts < 1 then Err(ValueError("attempts must be 1 or more")) else Ok(maxAttempts)
  }

  /** How many times the wrapper calls an operation whose i-th call would give
      `outcomes[i]`: up to and including the first success, and never more than
      `maxAttempts`; it stops short of the limit only on a success. */
  function RetryCalls<T, E>(maxAttempts: AttemptLimit, outcomes: seq<Attempt<T, E>>): (calls: nat)
    requires maxAttempts <= |outcomes|
    ensures 1 <= calls <= maxAttempts
    ensures forall j :: 0 <= j < calls - 1 ==> outcomes[j].Raised?
    ensures outcomes[calls - 1].Raised? ==> calls == maxAttempts
  {
    RetryCallsFrom(maxAttempts, outcomes, 0)
  }

  function RetryCallsFrom<T, E>(maxAttempts: AttemptLimit, outcomes: seq<Attempt<T, E>>, attempt: nat): (calls: nat)
    requires attempt < maxAttempts <= |outcomes|
    requires forall j :: 0 <= j < attempt ==> outcomes[j].Raised?
    ensures attempt < calls <= maxAttempts
    ensures forall j :: 0 <= j < calls - 1 ==> outcomes[j].Raised?
    ensures outcomes[calls - 1].Raised? ==> calls == maxAttempts
    decreases maxAttempts - attempt
  {
    if outcomes[attempt].Returned? || attempt == maxAttempts - 1 then attempt + 1
    else RetryCallsFrom(maxAttempts, outcomes, attempt + 1)
  }

  /** The number of calls is determined by where the wrapper stops: the first
      success, or the limit. */
  lemma {:induction false} RetryCallsFromIs<T, E>(maxAttempts: AttemptLimit, outcomes: seq<Attempt<T, E>>, attempt: nat, calls: nat)
    requires attempt < calls <= maxAttempts <= |outcomes|
    requires forall j :: 0 <= j < calls - 1 ==> outcomes[j].Raised?
    requires outcomes[calls - 1].Returned? || calls == maxAttempts
    ensures RetryCallsFrom(maxAttempts, outcomes, attempt) == calls
    decreases maxAttempts - attempt
  {
    if attempt + 1 < calls {
      RetryCallsFromIs(maxAttempts, outcomes, attempt + 1, calls);
    }
  }

  /** The wrapped call: the outcome of the last call made, which is the first
      success, or the last failure after exactly `maxAttempts` failures. */
  method Retried<T, E>(maxAttempts: AttemptLimit, outcomes: seq<Attempt<T, E>>) returns (r: Attempt<T, E>, calls: nat)
    requires maxAttempts <= |outcomes|
    ensures calls == RetryCalls(maxAttempts, outcomes)
    ensures r == outcomes[calls - 1]
  {
    var attempt := 0;
    while true
      invariant 0 <= attempt < maxAttempts
      invariant forall j :: 0 <= j < attempt ==> outcomes[j].Raised?
      decreases maxAttempts - attempt
    {
      var outcome := outcomes[attempt];
      if outcome.Returned? || attempt == maxAttempts - 1 {
        return outcome, attempt + 1;
      }
      attempt := attempt + 1;
    }
  }
}
