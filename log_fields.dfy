// The key/value convention of the services' loggers: a variadic list read as key, value, key,
// value, ... into a field map.
module LogFields {
  /** A Go interface{} value as a logger sees it: a string, or a value of another type. */
  datatype Value = Str(s: string) | Other(rendered: string)

  datatype Level = Debug | Info | Warn | Error

  /** One log line as handed to logrus: its level, message and fields. */
  datatype Record = Record(level: Level, msg: string, fields: map<string, Value>)

  /** The field map after the first n pairs of `fields`, a later key overwriting an earlier one. */
  function PairsUpTo(fields: seq<Value>, n: nat): map<string, Value>
    requires 2 * n <= |fields|
  {
    if n == 0 then map[]
    else
      var before := PairsUpTo(fields, n - 1);
      match fields[2 * n - 2]
      case Str(key) => before[key := fields[2 * n - 1]]
      case Other(_) => before
  }

  /** The field map of a whole argument list: every complete pair, a trailing single value dropped. */
  function Parsed(fields: seq<Value>): map<string, Value> {
    PairsUpTo(fields, |fields| / 2)
  }

  lemma {:induction false} PairsUpToPrefix(fields: seq<Value>, more: seq<Value>, n: nat)
    requires 2 * n <= |fields|
    ensures PairsUpTo(fields + more, n) == PairsUpTo(fields, n)
  {
    if n > 0 {
      PairsUpToPrefix(fields, more, n - 1);
      assert (fields + more)[2 * n - 2] == fields[2 * n - 2];
      assert (fields + more)[2 * n - 1] == fields[2 * n - 1];
    }
  }

  /**
   * One more pair: a string key is set to its value, replacing any earlier value of that key;
   * a pair whose key is not a string is skipped.
   */
  lemma ParsedAppendPair(fields: seq<Value>, key: Value, value: Value)
    requires |fields| % 2 == 0
    ensures key.Str? ==> Parsed(fields + [key, value]) == Parsed(fields)[key.s := value]
    ensures key.Other? ==> Parsed(fields + [key, value]) == Parsed(fields)
  {
    var all := fields + [key, value];
    var n := |fields| / 2;
    assert |all| / 2 == n + 1;
    assert all[2 * n] == key && all[2 * n + 1] == value;
    PairsUpToPrefix(fields, [key, value], n);
  }

  /** A trailing value without a partner is ignored. */
  lemma ParsedIgnoresTrailing(fields: seq<Value>, last: Value)
    requires |fields| % 2 == 0
    ensures Parsed(fields + [last]) == Parsed(fields)
  {
    assert |fields + [last]| / 2 == |fields| / 2;
    PairsUpToPrefix(fields, [last], |fields| / 2);
  }

  /** Every key of the map is a string found at an even position with a value after it. */
  lemma {:induction false} PairsUpToKeys(fields: seq<Value>, n: nat, key: string)
    requires 2 * n <= |fields|
    requires key in PairsUpTo(fields, n)
    ensures exists i :: 0 <= i < 2 * n && i % 2 == 0 && fields[i] == Str(key)
  {
    var before := PairsUpTo(fields, n - 1);
    if fields[2 * n - 2] == Str(key) {
      assert (2 * n - 2) % 2 == 0;
    } else {
      assert key in before;
      PairsUpToKeys(fields, n - 1, key);
    }
  }

  /** The value of a key is the one after its last occurrence as a key. */
  lemma {:induction false} PairsUpToLastWins(fields: seq<Value>, n: nat, i: nat)
    requires 2 * n <= |fields|
    requires i % 2 == 0 && i + 1 < 2 * n && fields[i].Str?
    requires forall j :: i < j < 2 * n && j % 2 == 0 ==> fields[j] != fields[i]
    ensures fields[i].s in PairsUpTo(fields, n) && PairsUpTo(fields, n)[fields[i].s] == fields[i + 1]
  {
    if i + 2 == 2 * n {
      assert fields[2 * n - 2] == fields[i];
    } else {
      PairsUpToLastWins(fields, n - 1, i);
      assert fields[2 * n - 2] != fields[i];
    }
  }

  /** A key is in the parsed map iff it appears as a string at an even position with a partner. */
  lemma ParsedKeys(fields: seq<Value>, key: string)
    ensures key in Parsed(fields) <==>
      exists i :: 0 <= i && i + 1 < |fields| && i % 2 == 0 && fields[i] == Str(key)
  {
    var n := |fields| / 2;
    if key in Parsed(fields) {
      PairsUpToKeys(fields, n, key);
    }
    if exists i :: 0 <= i && i + 1 < |fields| && i % 2 == 0 && fields[i] == Str(key) {
      var i :| 0 <= i && i + 1 < |fields| && i % 2 == 0 && fields[i] == Str(key);
      var last := LastKeyPosition(fields, n, i);
      PairsUpToLastWins(fields, n, last);
    }
  }

  /** The last even position at or after i holding the same key as position i. */
  lemma {:induction false} LastKeyPosition(fields: seq<Value>, n: nat, i: nat) returns (last: nat)
    requires 2 * n <= |fields|
    requires i % 2 == 0 && i + 1 < 2 * n
    ensures i <= last && last % 2 == 0 && last + 1 < 2 * n && fields[last] == fields[i]
    ensures forall j :: last < j < 2 * n && j % 2 == 0 ==> fields[j] != fields[i]
    decreases 2 * n - i
  {
    if forall j :: i < j < 2 * n && j % 2 == 0 ==> fields[j] != fields[i] {
      last := i;
    } else {
      var j :| i < j < 2 * n && j % 2 == 0 && fields[j] == fields[i];
      last := LastKeyPosition(fields, n, j);
    }
  }

  /** The value of a string key is the element after its last occurrence at an even position. */
  lemma ParsedLastWins(fields: seq<Value>, i: nat)
    requires i % 2 == 0 && i + 1 < |fields| && fields[i].Str?
    requires forall j :: i < j < |fields| && j % 2 == 0 ==> fields[j] != fields[i]
    ensures fields[i].s in Parsed(fields) && Parsed(fields)[fields[i].s] == fields[i + 1]
  {
    PairsUpToLastWins(fields, |fields| / 2, i);
  }

  /** parseFields: the stepping loop over the argument list, two elements at a time. */
  method ParseFields(fields: seq<Value>) returns (m: map<string, Value>)
    ensures m == Parsed(fields)
  {
    m := map[];
    var i := 0;
    while i < |fields| - 1
      invariant 0 <= i <= |fields| && i % 2 == 0
      invariant m == PairsUpTo(fields, i / 2)
    {
      if fields[i].Str? {
        m := m[fields[i].s := fields[i + 1]];
      }
      i := i + 2;
    }
  }
}
