/**
 * Configuration lookup over the parsed YAML document: dot-separated key paths,
 * API-key retrieval with placeholder rejection, and dictionary-style access.
 */
module Config {
  import opened Wrappers
  import opened Strings

  /** A YAML value as `yaml.safe_load` produces it. */
  datatype Value =
    | Dict(entries: map<string, Value>)
    | List(items: seq<Value>)
    | Str(s: string)
    | Int(i: int)
    | Float(f: real)
    | Bool(b: bool)
    | Null

  /** Python truthiness of a value. */
  predicate Truthy(v: Value) {
    match v
    case Dict(m) => |m| > 0
    case List(xs) => |xs| > 0
    case Str(s) => s != ""
    case Int(i) => i != 0
    case Float(f) => f != 0.0
    case Bool(b) => b
    case Null => false
  }

  function TypeName(v: Value): string {
    match v
    case Dict(_) => "dict"
    case List(_) => "list"
    case Str(_) => "str"
    case Int(_) => "int"
    case Float(_) => "float"
    case Bool(_) => "bool"
    case Null => "NoneType"
  }

  /**
   * Descend through `keys` one segment at a time, each step needing a dict that
   * holds the segment; None as soon as a step cannot be taken.
   */
  function Walk(v: Value, keys: seq<string>): (r: Option<Value>)
    ensures |keys| == 0 ==> r == Some(v)
    ensures |keys| > 0 && !(v.Dict? && keys[0] in v.entries) ==> r == None
    ensures |keys| > 0 && v.Dict? && keys[0] in v.entries ==> r == Walk(v.entries[keys[0]], keys[1..])
  {
    if |keys| == 0 then Some(v)
    else if v.Dict? && keys[0] in v.entries then Walk(v.entries[keys[0]], keys[1..])
    else None
  }

  /** Walking a concatenated path is walking the first part, then the second from where it ends. */
  lemma {:induction false} WalkAppend(v: Value, p: seq<string>, q: seq<string>)
    ensures Walk(v, p + q) == (match Walk(v, p) case None => None case Some(w) => Walk(w, q))
    decreases |p|
  {
    if |p| > 0 {
      assert (p + q)[0] == p[0] && (p + q)[1..] == p[1..] + q;
      if v.Dict? && p[0] in v.entries {
        WalkAppend(v.entries[p[0]], p[1..], q);
      }
    } else {
      assert p + q == q;
    }
  }

  /** A dotted path of two dot-free names splits into exactly those two names. */
  lemma TwoSegments(a: string, b: string)
    requires '.' !in a && '.' !in b
    ensures Split(a + "." + b, '.') == [a, b]
  {
    assert a + "." + b == a + ['.'] + b;
    SplitAppend(a, b, '.');
    SplitNoSeparator(a, '.');
    SplitNoSeparator(b, '.');
  }

  /** A two-key walk is two nested dictionary lookups. */
  lemma WalkTwo(v: Value, a: string, b: string)
    ensures Walk(v, [a, b]).GetOr(Null) ==
      (if v.Dict? && a in v.entries && v.entries[a].Dict? && b in v.entries[a].entries
       then v.entries[a].entries[b] else Null)
  {
    assert [a, b][1..] == [b] && [b][1..] == [];
  }

  function ApiKeyMessage(service: string): string {
    "Please set your " + service + " API key in config.yaml. Copy config.example.yaml to config.yaml and add your keys."
  }

  class Config {
    /** The top-level mapping loaded from the configuration file. */
    const config: map<string, Value>

    constructor(config: map<string, Value>)
      ensures this.config == config
    {
      this.config := config;
    }

    /** `get`: the value at the dot-separated `keyPath`, or `default` when the walk stops short. */
    method Get(keyPath: string, default: Value := Null) returns (value: Value)
      ensures value == Walk(Dict(config), Split(keyPath, '.')).GetOr(default)
    {
      var keys := Split(keyPath, '.');
      value := Dict(config);
      for i := 0 to |keys|
        invariant Walk(Dict(config), keys) == Walk(value, keys[i..])
      {
        var key := keys[i];
        assert keys[i..][1..] == keys[i + 1..];
        if value.Dict? && key in value.entries {
          value := value.entries[key];
        } else {
          return default;
        }
      }
      assert keys[|keys|..] == [];
    }

    /**
     * `get_api_key`: the string stored at `api_keys.<service>`. A missing or falsy
     * value, or one starting with "YOUR_", raises ValueError; a truthy value that
     * is not a string has no `startswith` and raises AttributeError.
     */
    function GetApiKey(service: string): (r: Result<string>)
      ensures var key := Walk(Dict(config), Split("api_keys." + service, '.')).GetOr(Null);
        && (r.Ok? <==> key.Str? && key.s != "" && !StartsWith(key.s, "YOUR_"))
        && (r.Ok? ==> key == Str(r.value))
        && (r == Err(ValueError(ApiKeyMessage(service))) <==> !Truthy(key) || (key.Str? && StartsWith(key.s, "YOUR_")))
        && (r.Err? && r.error.AttributeError? <==> Truthy(key) && !key.Str?)
    {
      var key := Walk(Dict(config), Split("api_keys." + service, '.')).GetOr(Null);
      if !Truthy(key) then Err(ValueError(ApiKeyMessage(service)))
      else if !key.Str? then Err(AttributeError("'" + TypeName(key) + "' object has no attribute 'startswith'"))
      else if StartsWith(key.s, "YOUR_") then Err(ValueError(ApiKeyMessage(service)))
      else Ok(key.s)
    }

    /** `__getitem__`: the top-level entry for `key`, KeyError when there is none. */
    function GetItem(key: string): (r: Result<Value>)
      ensures r.Ok? <==> key in config
      ensures r.Ok? ==> r.value == config[key]
      ensures r.Err? ==> r.error == KeyError(key)
    {
      if key in config then Ok(config[key]) else Err(KeyError(key))
    }

    /** A path without dots is a single top-level lookup, falling back to the default. */
    lemma SingleSegment(key: string, default: Value)
      requires '.' !in key
      ensures Walk(Dict(config), Split(key, '.')).GetOr(default) == (if key in config then config[key] else default)
    {
      SplitNoSeparator(key, '.');
      assert Split(key, '.')[1..] == [];
    }

    /**
     * Dotted paths compose: the value at "p.q" is the value at q looked up inside
     * the value at p, and the default when p is missing.
     */
    lemma PathComposes(p: string, q: string)
      ensures Walk(Dict(config), Split(p + "." + q, '.')) ==
        (match Walk(Dict(config), Split(p, '.')) case None => None case Some(w) => Walk(w, Split(q, '.')))
    {
      assert p + "." + q == p + ['.'] + q;
      SplitAppend(p, q, '.');
      WalkAppend(Dict(config), Split(p, '.'), Split(q, '.'));
    }

    /** For a service name without dots, the API key is read from the `api_keys` mapping. */
    lemma ApiKeyLocation(service: string)
      requires '.' !in service
      ensures var key := Walk(Dict(config), Split("api_keys." + service, '.')).GetOr(Null);
        key == (if "api_keys" in config && config["api_keys"].Dict? && service in config["api_keys"].entries
                then config["api_keys"].entries[service] else Null)
    {
      assert "api_keys." + service == "api_keys" + "." + service;
      assert '.' !in "api_keys" by {
        assert forall i :: 0 <= i < |"api_keys"| ==> "api_keys"[i] != '.';
      }
      TwoSegments("api_keys", service);
      WalkTwo(Dict(config), "api_keys", service);
    }
  }
}
