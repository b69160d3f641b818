// The configuration loaders' environment helpers: a variable's value when set and non-empty and
// well-formed, the default otherwise.
module Env {
  import opened Wrappers
  import opened Numbers
  import opened Text

  /** The process environment; os.Getenv gives "" for a variable that is not set. */
  type Environment = map<string, string>

  /** Durations are int64 nanoseconds. */
  const Millisecond: int := 1_000_000
  const Second: int := 1_000_000_000

  function Getenv(env: Environment, key: string): string {
    if key in env then env[key] else ""
  }

  /** getEnv. */
  function GetEnv(env: Environment, key: string, defaultValue: string): (r: string)
    ensures key in env && env[key] != "" ==> r == env[key]
    ensures key !in env || env[key] == "" ==> r == defaultValue
    ensures r == "" ==> defaultValue == ""
  {
    var value := Getenv(env, key);
    if value != "" then value else defaultValue
  }

  /** getIntEnv, and getInt64Env: strconv.ParseInt(value, 10, 64) accepts what Atoi accepts on a 64-bit platform. */
  function GetIntEnv(env: Environment, key: string, defaultValue: int): (r: int)
    ensures key !in env || Atoi(env[key]).None? ==> r == defaultValue
    ensures key in env && Atoi(env[key]).Some? ==> r == Atoi(env[key]).value
  {
    var value := Getenv(env, key);
    if value != "" then
      match Atoi(value)
      case Some(n) => n
      case None => defaultValue
    else defaultValue
  }

  /** A variable holding a formatted int64 is read back as that number. */
  lemma GetIntEnvFormatted(env: Environment, key: string, n: int, defaultValue: int)
    requires Int64Min <= n <= Int64Max
    requires key in env && env[key] == FormatInt(n)
    ensures GetIntEnv(env, key, defaultValue) == n
  {
    AtoiFormatInt(n);
  }

  /** strconv.ParseBool. */
  function ParseBool(s: string): (r: Option<bool>)
    ensures r == Some(true) <==> s in {"1", "t", "T", "TRUE", "true", "True"}
    ensures r == Some(false) <==> s in {"0", "f", "F", "FALSE", "false", "False"}
  {
    if s in {"1", "t", "T", "TRUE", "true", "True"} then Some(true)
    else if s in {"0", "f", "F", "FALSE", "false", "False"} then Some(false)
    else None
  }

  /** getBoolEnv. */
  function GetBoolEnv(env: Environment, key: string, defaultValue: bool): (r: bool)
    ensures key !in env || ParseBool(env[key]).None? ==> r == defaultValue
    ensures key in env && ParseBool(env[key]).Some? ==> r == ParseBool(env[key]).value
  {
    var value := Getenv(env, key);
    if value != "" then
      match ParseBool(value)
      case Some(b) => b
      case None => defaultValue
    else defaultValue
  }

  /**
   * getDurationEnv. `parseDuration` is time.ParseDuration, which is not part of this model; a
   * value it rejects is tried as whole seconds, the int64 product wrapping as Go's does.
   */
  function GetDurationEnv(env: Environment, key: string, defaultValue: int, parseDuration: string -> Option<int>): (r: int)
    ensures Getenv(env, key) == "" ==> r == defaultValue
    ensures Getenv(env, key) != "" && parseDuration(env[key]).Some? ==> r == parseDuration(env[key]).value
    ensures Getenv(env, key) != "" && parseDuration(env[key]).None? ==>
      r == match Atoi(env[key]) case Some(s) => WrapInt64(s * Second) case None => defaultValue
  {
    var value := Getenv(env, key);
    if value != "" then
      match parseDuration(value)
      case Some(d) => d
      case None =>
        match Atoi(value)
        case Some(seconds) => WrapInt64(seconds * Second)
        case None => defaultValue
    else defaultValue
  }

  /**
   * A plain number of seconds that time.ParseDuration rejects (it wants a unit) is read as that
   * many seconds, exactly, as long as the nanoseconds fit in int64.
   */
  lemma GetDurationEnvSeconds(env: Environment, key: string, seconds: nat, defaultValue: int, parseDuration: string -> Option<int>)
    requires seconds * Second <= Int64Max
    requires key in env && env[key] == FormatInt(seconds) && parseDuration(env[key]).None?
    ensures GetDurationEnv(env, key, defaultValue, parseDuration) == seconds * Second
  {
    AtoiFormatInt(seconds);
  }

  /** What getBrokersEnv makes of a non-empty value: the comma-separated pieces, each trimmed. */
  function BrokerList(value: string): (r: seq<string>)
    ensures |r| == Count(value, ',') + 1
    ensures forall i :: 0 <= i < |r| ==> Trimmed(r[i]) && Free(r[i], ',')
  {
    var pieces := Split(value, ',');
    seq(|pieces|, i requires 0 <= i < |pieces| => TrimSpace(pieces[i]))
  }

  /** The trimming loop of getBrokersEnv: every element replaced by its trimmed form, in place. */
  method TrimEach(a: array<string>)
    modifies a
    ensures forall j :: 0 <= j < a.Length ==> a[j] == TrimSpace(old(a[j]))
  {
    ghost var orig := a[..];
    for i := 0 to a.Length
      invariant forall j :: 0 <= j < i ==> a[j] == TrimSpace(orig[j])
      invariant forall j :: i <= j < a.Length ==> a[j] == orig[j]
    {
      a[i] := TrimSpace(a[i]);
    }
  }

  /** getBrokersEnv: strings.Split on ",", then each element trimmed. */
  method GetBrokersEnv(env: Environment, key: string, defaultValue: seq<string>) returns (brokers: seq<string>)
    ensures Getenv(env, key) == "" ==> brokers == defaultValue
    ensures Getenv(env, key) != "" ==> brokers == BrokerList(env[key])
  {
    var value := Getenv(env, key);
    if value == "" {
      return defaultValue;
    }
    var pieces := Split(value, ',');
    var a := new string[|pieces|](i requires 0 <= i < |pieces| => pieces[i]);
    TrimEach(a);
    brokers := a[..];
  }

  /**
   * Joining trimmed, comma-free brokers with "," (GetKafkaBrokerString) and reading the result
   * back gives the same brokers.
   */
  lemma {:induction false} BrokerListJoin(brokers: seq<string>)
    requires |brokers| >= 1
    requires forall i :: 0 <= i < |brokers| ==> Trimmed(brokers[i]) && Free(brokers[i], ',')
    ensures BrokerList(Join(brokers, ',')) == brokers
  {
    SplitJoin(brokers, ',');
    forall i | 0 <= i < |brokers|
      ensures TrimSpace(brokers[i]) == brokers[i]
    {
      TrimSpaceOfTrimmed(brokers[i]);
    }
  }

  /** Reading a broker list, joining it and reading it again changes nothing. */
  lemma BrokerListStable(value: string)
    ensures BrokerList(Join(BrokerList(value), ',')) == BrokerList(value)
  {
    BrokerListJoin(BrokerList(value));
  }
}
