/**
  The configuration manager shared by `src/utils/config.py` and
  `src/core/config.py`: dotted-key lookup in a tree of YAML values, and the
  pure selection step of `create_dict` that decides which directories are
  emptied and recreated.
 */
module Config {
  import opened Results

  /** A value produced by the YAML loader. */
  datatype Value =
    | Null
    | Bool(b: bool)
    | Int(i: int)
    | Scalar(repr: string)  // a float, date or other YAML scalar, kept as its text
    | Str(s: string)
    | List(items: seq<Value>)
    | Dict(entries: map<string, Value>)

  /** The `{}` default that the section getters pass. */
  const EmptyDict: Value := Dict(map[])

  /** Errors raised while selecting directories. */
  datatype ConfigError =
    | RootNotMapping   // `self._config.get` on a document that is not a mapping
    | PathsNotMapping  // `paths.items()` on a `paths` entry that is not a mapping

  // ---------------------------------------------------------------------
  // Dotted keys: `key.split('.')` and its inverse
  // ---------------------------------------------------------------------

  /** Joins segments with `.` (the inverse of `Split`). */
  function Join(parts: seq<string>): string
  {
    if |parts| == 0 then ""
    else if |parts| == 1 then parts[0]
    else parts[0] + "." + Join(parts[1..])
  }

  /** Python's `s.split('.')`: every dot separates, empty segments are kept. */
  function Split(s: string): (parts: seq<string>)
    ensures |parts| >= 1
    ensures forall i :: 0 <= i < |parts| ==> '.' !in parts[i]
  {
    if |s| == 0 then [""]
    else
      var rest := Split(s[1..]);
      if s[0] == '.' then [""] + rest
      else [[s[0]] + rest[0]] + rest[1..]
  }

  /** Splitting loses nothing: joining the segments gives back the key. */
  lemma {:induction false} JoinSplit(s: string)
    ensures Join(Split(s)) == s
  {
    if |s| == 0 {
    } else {
      var rest := Split(s[1..]);
      JoinSplit(s[1..]);
      if s[0] == '.' {
        assert Split(s) == [""] + rest;
        assert Join(Split(s)) == "" + "." + Join(rest);
        assert s == [s[0]] + s[1..];
      } else {
        var head := [s[0]] + rest[0];
        assert Split(s) == [head] + rest[1..];
        if |rest| == 1 {
          assert Join(Split(s)) == head;
          assert Join(rest) == rest[0];
        } else {
          assert Join(Split(s)) == head + "." + Join(rest[1..]);
          assert Join(rest) == rest[0] + "." + Join(rest[1..]);
        }
        assert s == [s[0]] + s[1..];
      }
    }
  }

  /** A dot-free prefix glues onto the first segment of what follows. */
  lemma {:induction false} SplitDotFreePrefix(p: string, s: string)
    requires '.' !in p
    ensures Split(p + s) == [p + Split(s)[0]] + Split(s)[1..]
  {
    if |p| == 0 {
      assert p + s == s;
      assert p + Split(s)[0] == Split(s)[0];
      assert Split(s) == [Split(s)[0]] + Split(s)[1..];
    } else {
      SplitDotFreePrefix(p[1..], s);
      assert (p + s)[1..] == p[1..] + s;
      assert (p + s)[0] == p[0];
      assert [p[0]] + (p[1..] + Split(s)[0]) == p + Split(s)[0];
    }
  }

  /** A leading dot closes an empty first segment. */
  lemma SplitLeadingDot(s: string)
    ensures Split("." + s) == [""] + Split(s)
  {
    assert ("." + s)[1..] == s;
  }

  /** Splitting is the inverse of joining dot-free segments. */
  lemma {:induction false} SplitJoin(parts: seq<string>)
    requires |parts| >= 1
    requires forall i :: 0 <= i < |parts| ==> '.' !in parts[i]
    ensures Split(Join(parts)) == parts
  {
    if |parts| == 1 {
      SplitDotFreePrefix(parts[0], "");
      assert parts[0] + "" == parts[0];
    } else {
      var tail := Join(parts[1..]);
      SplitJoin(parts[1..]);
      SplitDotFreePrefix(parts[0], "." + tail);
      SplitLeadingDot(tail);
      assert Join(parts) == parts[0] + ("." + tail);
      assert Split(Join(parts)) == [parts[0] + ""] + Split(tail);
      assert parts[0] + "" == parts[0];
      assert parts == [parts[0]] + parts[1..];
    }
  }

  /** A single dot-free word is one segment. */
  lemma SplitDotFree(s: string)
    requires '.' !in s
    ensures Split(s) == [s]
  {
    SplitJoin([s]);
  }

  /** Joining concatenated segment lists puts one dot between the halves. */
  lemma {:induction false} JoinAppend(xs: seq<string>, ys: seq<string>)
    requires |xs| >= 1 && |ys| >= 1
    ensures Join(xs + ys) == Join(xs) + "." + Join(ys)
  {
    if |xs| == 1 {
      assert (xs + ys)[1..] == ys;
    } else {
      JoinAppend(xs[1..], ys);
      assert (xs + ys)[1..] == xs[1..] + ys;
    }
  }

  /** `(p + "." + q).split('.')` is `p.split('.') + q.split('.')`. */
  lemma SplitConcat(p: string, q: string)
    ensures Split(p + "." + q) == Split(p) + Split(q)
  {
    JoinSplit(p);
    JoinSplit(q);
    JoinAppend(Split(p), Split(q));
    var both := Split(p) + Split(q);
    assert forall i :: 0 <= i < |both| ==> '.' !in both[i] by {
      forall i | 0 <= i < |both|
        ensures '.' !in both[i]
      {
        if i < |Split(p)| {
          assert both[i] == Split(p)[i];
        } else {
          assert both[i] == Split(q)[i - |Split(p)|];
        }
      }
    }
    SplitJoin(both);
  }

  // ---------------------------------------------------------------------
  // Nested lookup
  // ---------------------------------------------------------------------

  /**
    `config[k1][k2]...[kn]` when every step is a mapping holding the next
    key, and `None` otherwise.
   */
  function Lookup(v: Value, keys: seq<string>): Option<Value>
    decreases |keys|
  {
    if |keys| == 0 then Some(v)
    else if v.Dict? && keys[0] in v.entries then Lookup(v.entries[keys[0]], keys[1..])
    else None
  }

  /** Looking up a concatenated path is looking up the tail inside the value found by the head. */
  lemma {:induction false} LookupAppend(v: Value, ps: seq<string>, qs: seq<string>)
    ensures Lookup(v, ps + qs) == match Lookup(v, ps)
                                  case None => None
                                  case Some(x) => Lookup(x, qs)
    decreases |ps|
  {
    if |ps| == 0 {
      assert ps + qs == qs;
    } else {
      assert (ps + qs)[0] == ps[0];
      assert (ps + qs)[1..] == ps[1..] + qs;
      if v.Dict? && ps[0] in v.entries {
        LookupAppend(v.entries[ps[0]], ps[1..], qs);
      }
    }
  }

  /** One more step of the walk. */
  lemma LookupStep(v: Value, ps: seq<string>, k: string)
    ensures Lookup(v, ps + [k]) == match Lookup(v, ps)
                                   case None => None
                                   case Some(x) =>
                                     if x.Dict? && k in x.entries then Some(x.entries[k]) else None
  {
    LookupAppend(v, ps, [k]);
  }

  /**
    `ConfigManager.get`: split the key on dots and walk the nested mappings,
    returning `default` (`None` unless given) as soon as a step is not a
    mapping or lacks the key.
   */
  method Get(config: Value, key: string, default: Value := Null) returns (r: Value)
    ensures Lookup(config, Split(key)).Some? ==> r == Lookup(config, Split(key)).value
    ensures Lookup(config, Split(key)).None? ==> r == default
  {
    var keys := Split(key);
    var value := config;
    var i := 0;
    while i < |keys|
      invariant 0 <= i <= |keys|
      invariant Lookup(config, keys[..i]) == Some(value)
    {
      var k := keys[i];
      LookupStep(config, keys[..i], k);
      assert keys[..i + 1] == keys[..i] + [k];
      if value.Dict? && k in value.entries {
        value := value.entries[k];
      } else {
        LookupAppend(config, keys[..i + 1], keys[i + 1..]);
        assert keys[..i + 1] + keys[i + 1..] == keys;
        return default;
      }
      i := i + 1;
    }
    assert keys[..i] == keys;
    r := value;
  }

  /**
    Presence alone decides: a top-level key held by the document is found,
    whatever it holds, `None`, `0`, `False`, `""` and `{}` included.
   */
  lemma PresentTopLevel(config: Value, k: string)
    requires '.' !in k
    requires config.Dict? && k in config.entries
    ensures Lookup(config, Split(k)) == Some(config.entries[k])
  {
    SplitDotFree(k);
    assert [k][1..] == [];
  }

  /**
    Presence alone decides, one level down: when `p` reaches a mapping that
    holds the dot-free key `k`, `p.k` is found and gives exactly the stored
    value, falsy or not, so the default is never consulted.
   */
  lemma PresentValueReturned(config: Value, p: string, k: string)
    requires '.' !in k
    requires Lookup(config, Split(p)).Some? && Lookup(config, Split(p)).value.Dict?
    requires k in Lookup(config, Split(p)).value.entries
    ensures Lookup(config, Split(p + "." + k)) == Some(Lookup(config, Split(p)).value.entries[k])
  {
    SplitConcat(p, k);
    SplitDotFree(k);
    LookupStep(config, Split(p), k);
  }

  /** The falsy values of the source's docstring are found like any other. */
  lemma FalsyValuesFound(k: string, x: Value)
    requires '.' !in k
    requires x in {Null, Int(0), Bool(false), Str(""), EmptyDict}
    ensures Lookup(Dict(map[k := x]), Split(k)) == Some(x)
  {
    PresentTopLevel(Dict(map[k := x]), k);
  }

  /** A missing segment at position `i` yields the default, whatever follows it. */
  lemma MissingSegment(config: Value, key: string, i: nat)
    requires i < |Split(key)|
    requires Lookup(config, Split(key)[..i]).Some?
    requires var x := Lookup(config, Split(key)[..i]).value;
             !(x.Dict? && Split(key)[i] in x.entries)
    ensures Lookup(config, Split(key)) == None
  {
    var keys := Split(key);
    LookupStep(config, keys[..i], keys[i]);
    LookupAppend(config, keys[..i] + [keys[i]], keys[i + 1..]);
    assert keys[..i] + [keys[i]] + keys[i + 1..] == keys;
  }

  /** Asking for `p.q` where `p` holds a value that is not a mapping gives no value. */
  lemma NonMappingIntermediate(config: Value, p: string, q: string)
    requires Lookup(config, Split(p)).Some?
    requires !Lookup(config, Split(p)).value.Dict?
    ensures Lookup(config, Split(p + "." + q)) == None
  {
    SplitConcat(p, q);
    LookupAppend(config, Split(p), Split(q));
  }

  /**
    Composition: when `p` leads to a value `x`, looking up `p.q` is looking
    up `q` inside `x`, with the same default.
   */
  lemma LookupCompose(config: Value, p: string, q: string, d: Value)
    requires Lookup(config, Split(p)).Some?
    ensures Lookup(config, Split(p + "." + q)).GetOr(d)
         == Lookup(Lookup(config, Split(p)).value, Split(q)).GetOr(d)
  {
    SplitConcat(p, q);
    LookupAppend(config, Split(p), Split(q));
  }

  /**
    A fixed dot-free section name of the top-level mapping, or `{}` when the
    document is not a mapping or lacks it (`self.get('<name>', {})`).
   */
  method Section(config: Value, name: string) returns (r: Value)
    requires '.' !in name
    ensures config.Dict? && name in config.entries ==> r == config.entries[name]
    ensures !(config.Dict? && name in config.entries) ==> r == EmptyDict
  {
    if config.Dict? && name in config.entries {
      PresentTopLevel(config, name);
    } else {
      SplitDotFree(name);
    }
    r := Get(config, name, EmptyDict);
  }

  /** The value at `first.<rest...>`, or `{}` (`self.get(f'{first}.{rest}', {})`). */
  method NestedSection(config: Value, first: string, rest: string) returns (r: Value)
    requires '.' !in first
    ensures r == Lookup(config, [first] + Split(rest)).GetOr(EmptyDict)
  {
    SplitConcat(first, rest);
    SplitDotFree(first);
    r := Get(config, first + "." + rest, EmptyDict);
  }

  // ---------------------------------------------------------------------
  // Directory selection of `create_dict`
  // ---------------------------------------------------------------------

  /** A `paths` entry contributes a string as itself and a mapping through its values. */
  predicate Contributes(entry: Value, dir: Value)
  {
    (entry.Str? && dir == entry) || (entry.Dict? && dir in entry.entries.Values)
  }

  /**
    The directories `create_dict` hands to `ensure_empty_dir`: each string
    under `paths`, every value of each mapping under `paths`; other values
    are skipped and a missing `paths` selects nothing.
   */
  method DirectoriesToCreate(config: Value) returns (r: Result<set<Value>, ConfigError>)
    ensures !config.Dict? <==> r == Err(RootNotMapping)
    ensures config.Dict? && "paths" !in config.entries ==> r == Ok({})
    ensures r == Err(PathsNotMapping) <==>
              config.Dict? && "paths" in config.entries && !config.entries["paths"].Dict?
    ensures r.Ok? ==> config.Dict?
    ensures r.Ok? && "paths" in config.entries ==>
              forall dir :: dir in r.value <==>
                exists k :: k in config.entries["paths"].entries
                         && Contributes(config.entries["paths"].entries[k], dir)
  {
    if !config.Dict? {
      return Err(RootNotMapping);
    }
    if "paths" !in config.entries {
      return Ok({});
    }
    var pathsValue := config.entries["paths"];
    if !pathsValue.Dict? {
      return Err(PathsNotMapping);
    }
    var paths := pathsValue.entries;
    var remaining := paths.Keys;
    var selected: set<Value> := {};
    while remaining != {}
      invariant remaining <= paths.Keys
      invariant forall dir :: dir in selected <==>
                  exists k :: k in paths && k !in remaining && Contributes(paths[k], dir)
      decreases remaining
    {
      var k :| k in remaining;
      var entry := paths[k];
      if entry.Dict? {
        selected := selected + entry.entries.Values;
      } else if entry.Str? {
        selected := selected + {entry};
      }
      remaining := remaining - {k};
    }
    r := Ok(selected);
  }
}
