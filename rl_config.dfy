/**
 * The persisted tuning configuration: a JSON object read with dot-path keys
 * and updated by top-level merge, where every save stamps the time and
 * increments `version`. Reading and writing the JSON file is not modelled;
 * what the file held at start-up is a constructor parameter.
 */
module RlConfig {
  import opened Wrappers

  /**
   * A JSON value as `json.load` yields it. `Time(t)` is an ISO-8601 text
   * written by `datetime.now().isoformat()`, kept as the instant `t` it shows.
   */
  datatype Value =
    | Null
    | Bool(b: bool)
    | Int(i: int)
    | Float(x: real)
    | Str(s: string)
    | Time(t: nat)
    | List(items: seq<Value>)
    | Dict(entries: map<string, Value>)

  type Config = map<string, Value>

  predicate IsNumber(v: Value) { v.Int? || v.Float? }

  /** A Python int or float as a number. */
  function AsReal(v: Value): real
    requires IsNumber(v)
  {
    if v.Int? then v.i as real else v.x
  }

  /** `d.get(key, default)` on a dict value. */
  function DictGet(v: Value, key: string, default: Value): Value
    requires v.Dict?
  {
    if key in v.entries then v.entries[key] else default
  }

  // ---- Dot-path keys ----

  /** `s.split(sep)`: the pieces between separators; never empty. */
  function Split(s: string, sep: char): (parts: seq<string>)
    ensures |parts| >= 1
    ensures forall i :: 0 <= i < |parts| ==> sep !in parts[i]
  {
    if |s| == 0 then [""]
    else
      var p := Split(s[..|s| - 1], sep);
      var c := s[|s| - 1];
      if c == sep then p + [""] else p[..|p| - 1] + [p[|p| - 1] + [c]]
  }

  /** `sep.join(parts)`. */
  function Join(parts: seq<string>, sep: char): string
    requires |parts| >= 1
  {
    if |parts| == 1 then parts[0] else Join(parts[..|parts| - 1], sep) + [sep] + parts[|parts| - 1]
  }

  /** Joining one more piece appends a separator and the piece. */
  lemma JoinSnoc(p: seq<string>, x: string, sep: char)
    requires |p| >= 1
    ensures Join(p + [x], sep) == Join(p, sep) + [sep] + x
  {
    assert (p + [x])[..|p|] == p;
  }

  /** Extending the last piece by one character extends the joined text by it. */
  lemma {:induction false} JoinExtendLast(p: seq<string>, c: char, sep: char)
    requires |p| >= 1
    ensures Join(p[..|p| - 1] + [p[|p| - 1] + [c]], sep) == Join(p, sep) + [c]
  {
    var init, last := p[..|p| - 1], p[|p| - 1];
    if |p| > 1 {
      JoinSnoc(init, last + [c], sep);
      assert p == init + [last];
      JoinSnoc(init, last, sep);
    }
  }

  lemma {:induction false} JoinSplit(s: string, sep: char)
    ensures Join(Split(s, sep), sep) == s
  {
    if |s| > 0 {
      var init, c := s[..|s| - 1], s[|s| - 1];
      var p := Split(init, sep);
      JoinSplit(init, sep);
      assert s == init + [c];
      if c == sep {
        JoinSnoc(p, "", sep);
      } else {
        JoinExtendLast(p, c, sep);
      }
    }
  }

  /** A trailing separator opens a new, empty piece. */
  lemma SplitSnocSep(t: string, sep: char)
    ensures Split(t + [sep], sep) == Split(t, sep) + [""]
  {
    assert (t + [sep])[..|t|] == t;
  }

  /** A trailing non-separator character extends the last piece. */
  lemma SplitSnocChar(t: string, c: char, sep: char)
    requires c != sep
    ensures var p := Split(t, sep); Split(t + [c], sep) == p[..|p| - 1] + [p[|p| - 1] + [c]]
  {
    assert (t + [c])[..|t|] == t;
  }

  /** The list with its last piece one character shorter. */
  function DropLastChar(parts: seq<string>): seq<string>
    requires |parts| >= 1 && |parts[|parts| - 1]| > 0
  {
    var last := parts[|parts| - 1];
    parts[..|parts| - 1] + [last[..|last| - 1]]
  }

  /** Splitting undoes joining a list ending in an empty piece once it undoes joining the rest. */
  lemma SplitJoinEmptyLast(parts: seq<string>, sep: char)
    requires |parts| > 1 && parts[|parts| - 1] == ""
    requires Split(Join(parts[..|parts| - 1], sep), sep) == parts[..|parts| - 1]
    ensures Split(Join(parts, sep), sep) == parts
  {
    var init := parts[..|parts| - 1];
    assert parts == init + [""];
    JoinSnoc(init, "", sep);
    assert Join(init, sep) + [sep] + "" == Join(init, sep) + [sep];
    SplitSnocSep(Join(init, sep), sep);
  }

  /** Splitting undoes joining once it undoes joining the list with the last character dropped. */
  lemma SplitJoinExtendLast(parts: seq<string>, sep: char)
    requires |parts| >= 1 && |parts[|parts| - 1]| > 0
    requires parts[|parts| - 1][|parts[|parts| - 1]| - 1] != sep
    requires Split(Join(DropLastChar(parts), sep), sep) == DropLastChar(parts)
    ensures Split(Join(parts, sep), sep) == parts
  {
    var p, last := DropLastChar(parts), parts[|parts| - 1];
    var c := last[|last| - 1];
    assert p[..|p| - 1] + [p[|p| - 1] + [c]] == parts by {
      assert p[..|p| - 1] == parts[..|parts| - 1];
      assert last[..|last| - 1] + [c] == last;
    }
    JoinExtendLast(p, c, sep);
    SplitSnocChar(Join(p, sep), c, sep);
  }

  lemma {:induction false} SplitJoin(parts: seq<string>, sep: char)
    requires |parts| >= 1
    requires forall i :: 0 <= i < |parts| ==> sep !in parts[i]
    ensures Split(Join(parts, sep), sep) == parts
    decreases |parts|, |parts[|parts| - 1]|
  {
    var init, last := parts[..|parts| - 1], parts[|parts| - 1];
    if |last| == 0 {
      if |parts| > 1 {
        assert forall i :: 0 <= i < |init| ==> sep !in init[i] by {
          assert forall i :: 0 <= i < |init| ==> init[i] == parts[i];
        }
        SplitJoin(init, sep);
        SplitJoinEmptyLast(parts, sep);
      }
    } else {
      var shorter := DropLastChar(parts);
      assert forall i :: 0 <= i < |shorter| ==> sep !in shorter[i] by {
        assert forall i :: 0 <= i < |init| ==> shorter[i] == parts[i];
        assert forall x :: x in last[..|last| - 1] ==> x in last;
      }
      SplitJoin(shorter, sep);
      assert last[|last| - 1] in last;
      SplitJoinExtendLast(parts, sep);
    }
  }

  /** A key without dots is a path of one step; `a.b` is a path of two. */
  lemma PathOfOne(a: string)
    requires '.' !in a
    ensures Split(a, '.') == [a]
  {
    SplitJoin([a], '.');
  }

  lemma PathOfTwo(a: string, b: string)
    requires '.' !in a && '.' !in b
    ensures Split(a + "." + b, '.') == [a, b]
  {
    SplitJoin([a, b], '.');
    assert Join([a, b], '.') == a + "." + b by {
      assert [a, b][..1] == [a];
    }
  }

  // ---- get ----

  /**
   * The walk of `RLConfig.get`: at each key a dict is entered (a missing key
   * gives `default`), and anything that is not a dict with keys left gives
   * `default`.
   */
  function Lookup(v: Value, keys: seq<string>, default: Value): Value
    decreases |keys|
  {
    if |keys| == 0 then v
    else if v.Dict? then Lookup(if keys[0] in v.entries then v.entries[keys[0]] else default, keys[1..], default)
    else default
  }

  /** The value stored at `path`, when every step of it exists. */
  function Resolve(v: Value, path: seq<string>): Option<Value>
  {
    if |path| == 0 then Some(v)
    else if v.Dict? && path[0] in v.entries then Resolve(v.entries[path[0]], path[1..])
    else None
  }

  /** With a default that is not a dict, `get` returns the stored value, or the default when the path is absent. */
  lemma {:induction false} LookupResolve(v: Value, path: seq<string>, default: Value)
    requires !default.Dict?
    ensures Lookup(v, path, default) == Resolve(v, path).GetOr(default)
  {
    if |path| > 0 && v.Dict? && path[0] in v.entries {
      LookupResolve(v.entries[path[0]], path[1..], default);
    }
  }

  /** `config.get(key, default)`. */
  function GetValue(c: Config, key: string, default: Value): Value
  {
    Lookup(Dict(c), Split(key, '.'), default)
  }

  // ---- Saving ----

  predicate NumericVersion(c: Config)
  {
    "version" !in c || IsNumber(c["version"])
  }

  /** `config.get('version', 1)`. */
  function VersionOf(c: Config): real
    requires NumericVersion(c)
  {
    if "version" in c then AsReal(c["version"]) else 1.0
  }

  /** `config.get('version', 1) + 1`, keeping Python's int or float. */
  function NextVersion(c: Config): Value
    requires NumericVersion(c)
  {
    if "version" !in c then Int(2)
    else if c["version"].Int? then Int(c["version"].i + 1)
    else Float(c["version"].x + 1.0)
  }

  /** `_save_config` on the in-memory dict: stamp `last_updated`, increment `version`. */
  function Save(c: Config, now: nat): Config
    requires NumericVersion(c)
  {
    c["last_updated" := Time(now)]["version" := NextVersion(c)]
  }

  /**
   * An update merges exactly the given top-level keys, then stamps the time
   * and makes the version one larger than the merged dict's.
   */
  lemma SaveMerge(c: Config, updates: Config, now: nat)
    requires NumericVersion(c + updates)
    ensures var s := Save(c + updates, now);
      && s.Keys == c.Keys + updates.Keys + {"version", "last_updated"}
      && (forall k :: k in s && k != "version" && k != "last_updated" ==>
            s[k] == (if k in updates then updates[k] else c[k]))
      && s["last_updated"] == Time(now)
      && NumericVersion(s)
      && VersionOf(s) == VersionOf(c + updates) + 1.0
      && ("version" !in updates ==> VersionOf(c + updates) == VersionOf(c))
  {
  }

  /** The configuration built in when no usable file exists, stamped `now`. */
  function DefaultConfig(now: nat): Config
  {
    map[
      "version" := Int(1),
      "last_updated" := Time(now),
      "web_search" := Dict(map[
        "confidence_threshold" := Float(0.7),
        "judge_threshold" := Int(5),
        "enabled" := Bool(true)]),
      "confidence_weights" := Dict(map[
        "retrieval_eval" := Float(0.5),
        "answer_quality" := Float(0.5)]),
      "judge_weights" := Dict(map[
        "relevance" := Float(0.4),
        "factuality" := Float(0.4),
        "completeness" := Float(0.2)]),
      "reranking" := Dict(map[
        "min_score_threshold" := Float(-12.0),
        "top_k" := Int(5)]),
      "learning_rate" := Float(0.1),
      "min_samples" := Int(5),
      "performance_history" := List([])
    ]
  }

  /** What the configuration file holds at start-up. */
  datatype StoredConfig =
    | NoFile
    | Parsed(loaded: Config)
    | Unreadable

  /**
   * `_load_config`: a missing file is created from the defaults (one save, so
   * version 2); a parsed file is merged over the defaults; an unreadable one
   * leaves the defaults, unsaved.
   */
  function InitialConfig(stored: StoredConfig, now: nat): Config
  {
    match stored
    case NoFile => Save(DefaultConfig(now), now)
    case Parsed(loaded) => DefaultConfig(now) + loaded
    case Unreadable => DefaultConfig(now)
  }

  lemma InitialVersion(stored: StoredConfig, now: nat)
    ensures stored.NoFile? ==> InitialConfig(stored, now)["version"] == Int(2)
    ensures stored.Unreadable? ==> InitialConfig(stored, now) == DefaultConfig(now)
    ensures stored.Parsed? ==>
      forall k :: k in InitialConfig(stored, now) <==> k in DefaultConfig(now) || k in stored.loaded
  {
  }

  /** The exceptions that formatting the start-up message can raise. */
  datatype StartupError = KeyError | TypeError | ValueError

  /**
   * The start-up message formats `config['web_search']['confidence_threshold']`
   * with `:.2f`: the exception that raises, or None when it prints. A bool is
   * a Python int, so it formats like one.
   */
  function StartupFault(c: Config): (r: Option<StartupError>)
    ensures r.None? <==>
      && "web_search" in c && c["web_search"].Dict?
      && "confidence_threshold" in c["web_search"].entries
      && var t := c["web_search"].entries["confidence_threshold"]; IsNumber(t) || t.Bool?
  {
    if "web_search" !in c then Some(KeyError)
    else if !c["web_search"].Dict? then Some(TypeError)
    else if "confidence_threshold" !in c["web_search"].entries then Some(KeyError)
    else
      match c["web_search"].entries["confidence_threshold"]
      case Int(_) => None
      case Float(_) => None
      case Bool(_) => None
      case Str(_) => Some(ValueError)
      case Time(_) => Some(ValueError)
      case _ => Some(TypeError)
  }

  /**
   * Only a parsed file can break the start-up message, and only through its
   * own `web_search` entry, which replaces the default section whole.
   */
  lemma StartupFaultNeedsFile(stored: StoredConfig, now: nat)
    ensures !stored.Parsed? ==> StartupFault(InitialConfig(stored, now)).None?
    ensures stored.Parsed? && "web_search" !in stored.loaded ==> StartupFault(InitialConfig(stored, now)).None?
    ensures stored.Parsed? && "web_search" in stored.loaded ==>
      StartupFault(InitialConfig(stored, now)) == StartupFault(map["web_search" := stored.loaded["web_search"]])
  {
    var c := InitialConfig(stored, now);
    if !stored.Parsed? {
      var d := DefaultConfig(now);
      assert d["web_search"].entries["confidence_threshold"] == Float(0.7);
      if stored.NoFile? {
        assert c["web_search"] == d["web_search"];
      }
    } else if "web_search" !in stored.loaded {
      assert c["web_search"] == DefaultConfig(now)["web_search"];
    } else {
      assert c["web_search"] == stored.loaded["web_search"];
    }
  }

  /** A file whose `web_search` section lacks the threshold makes start-up raise a KeyError. */
  lemma PartialSectionFails(now: nat)
    ensures StartupFault(InitialConfig(Parsed(map["web_search" := Dict(map["enabled" := Bool(false)])]), now)) == Some(KeyError)
  {
  }

  class RLConfig {
    var config: Config

    constructor (stored: StoredConfig, now: nat)
      ensures config == InitialConfig(stored, now)
    {
      var defaults := DefaultConfig(now);
      match stored {
        case NoFile =>
          defaults := Save(defaults, now);
          config := defaults;
        case Parsed(loaded) =>
          config := defaults + loaded;
        case Unreadable =>
          config := defaults;
      }
    }

    /** `get`: split the key on dots and walk the path. */
    method Get(key: string, default: Value) returns (v: Value)
      ensures v == GetValue(config, key, default)
    {
      var keys := Split(key, '.');
      v := Dict(config);
      for i := 0 to |keys|
        invariant Lookup(v, keys[i..], default) == GetValue(config, key, default)
      {
        assert keys[i..][1..] == keys[i + 1..];
        if v.Dict? {
          v := if keys[i] in v.entries then v.entries[keys[i]] else default;
        } else {
          return default;
        }
      }
      assert keys[|keys|..] == [];
    }

    /** `update`: merge `updates` into the top level, then save. */
    method Update(updates: Config, now: nat)
      requires NumericVersion(config + updates)
      modifies this
      ensures config == Save(old(config) + updates, now)
    {
      config := config + updates;
      config := Save(config, now);
    }
  }
}
