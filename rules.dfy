/** The two shapes of code the account module repeats for every entity and every
    endpoint: a list comprehension that decodes each element of a JSON list, and a
    run of `if m.get(key) is not None: out[key] = convert(m[key])` statements. */
module Rules {
  import opened Json

  /** What a Python exception leaving a decoder stands for. */
  datatype Raised =
    | NotIterable(value: Json)   // TypeError: a list field holds a non-list value
    | NotAMapping(value: Json)   // AttributeError or TypeError: `from_dict` got a non-object
    | DuplicateSelf              // TypeError: `Entity(**data)` with a key named "self"
    | DecoderError(reason: string) // raised inside a decoder whose code is not part of this model

  datatype Result<+T> = Success(value: T) | Failure(error: Raised) {
    predicate IsFailure() { Failure? }
    function PropagateFailure<U>(): Result<U>
      requires Failure?
    {
      Failure(error)
    }
    function Extract(): T
      requires Success?
    {
      value
    }
  }

  /** `[decode(x) for x in xs]`: elements are decoded left to right and the first
      exception aborts the whole list. */
  function MapEach<T>(xs: seq<Json>, decode: Json -> Result<T>): Result<seq<T>>
  {
    if xs == [] then Success([])
    else
      var head :- decode(xs[0]);
      var tail :- MapEach(xs[1..], decode);
      Success([head] + tail)
  }

  /** The comprehension keeps length and order: element `i` of the result is the
      decoder applied to element `i` of the input; it raises exactly when some
      element's decoder does, with the leftmost such exception. */
  lemma {:induction false} MapEachSpec<T>(xs: seq<Json>, decode: Json -> Result<T>)
    ensures var r := MapEach(xs, decode);
      && (r.Success? ==> |r.value| == |xs|)
      && (r.Success? ==> forall i :: 0 <= i < |xs| ==> decode(xs[i]) == Success(r.value[i]))
      && (r.Failure? <==> exists i :: 0 <= i < |xs| && decode(xs[i]).Failure?)
      && (r.Failure? ==>
            exists i :: 0 <= i < |xs| && decode(xs[i]) == Failure(r.error) &&
              forall j :: 0 <= j < i ==> decode(xs[j]).Success?)
  {
    if xs != [] {
      MapEachSpec(xs[1..], decode);
      assert forall i :: 1 <= i < |xs| ==> xs[i] == xs[1..][i - 1];
      if decode(xs[0]).Success? && MapEach(xs[1..], decode).Failure? {
        var i :| 0 <= i < |xs[1..]| && decode(xs[1..][i]) == Failure(MapEach(xs[1..], decode).error) &&
          forall j :: 0 <= j < i ==> decode(xs[1..][j]).Success?;
        assert decode(xs[i + 1]) == Failure(MapEach(xs, decode).error);
        forall j | 0 <= j < i + 1 ensures decode(xs[j]).Success? {
          if j > 0 { assert xs[j] == xs[1..][j - 1]; }
        }
      }
    }
  }

  /** One guarded statement: the key it tests and how its value is converted. */
  datatype Rule<C> = Rule(key: string, conv: C)

  /** Every rule table of the module names each key once. */
  ghost predicate DistinctKeys<C>(rules: seq<Rule<C>>)
  {
    forall i, j :: 0 <= i < j < |rules| ==> rules[i].key != rules[j].key
  }

  /** The keys whose guard holds among rules `from..`: named by a rule and not
      `None` in the source. */
  ghost function Touched<C>(rules: seq<Rule<C>>, from: nat, src: map<string, Json>): set<string>
  {
    set i | from <= i < |rules| && IsSet(src, rules[i].key) :: rules[i].key
  }

  /** Rule `i` runs and its conversion raises. */
  ghost predicate Raises<C, V>(rules: seq<Rule<C>>, src: map<string, Json>,
                               convert: (C, Json) -> Result<V>, i: int)
  {
    0 <= i < |rules| && IsSet(src, rules[i].key) && convert(rules[i].conv, src[rules[i].key]).Failure?
  }

  /** One guarded statement applied to `acc`: when the rule's key is set in `src`,
      `acc[key]` becomes the converted value, or the conversion's exception escapes. */
  function ApplyRule<C, V>(rule: Rule<C>, src: map<string, Json>, acc: map<string, V>,
                           convert: (C, Json) -> Result<V>): Result<map<string, V>>
  {
    if IsSet(src, rule.key) then
      var v :- convert(rule.conv, src[rule.key]);
      Success(acc[rule.key := v])
    else
      Success(acc)
  }

  /** Statements `from..` of the run of guarded statements, in source order, applied
      to `acc`; the first conversion that raises aborts the run. */
  function ApplyFrom<C, V>(rules: seq<Rule<C>>, from: nat, src: map<string, Json>, acc: map<string, V>,
                           convert: (C, Json) -> Result<V>): Result<map<string, V>>
    decreases |rules| - from
  {
    if from >= |rules| then Success(acc)
    else
      var next :- ApplyRule(rules[from], src, acc, convert);
      ApplyFrom(rules, from + 1, src, next, convert)
  }

  /** The whole run. */
  function Apply<C, V>(rules: seq<Rule<C>>, src: map<string, Json>, acc: map<string, V>,
                       convert: (C, Json) -> Result<V>): Result<map<string, V>>
  {
    ApplyFrom(rules, 0, src, acc, convert)
  }

  /** What statements `from..` compute, key by key: a touched key holds its
      converted value, every other key of `acc` is left as it was, and the run
      raises exactly when some conversion does, with the first one's exception. */
  lemma {:induction false} ApplyFromSpec<C, V>(rules: seq<Rule<C>>, from: nat, src: map<string, Json>,
                                               acc: map<string, V>, convert: (C, Json) -> Result<V>)
    requires DistinctKeys(rules)
    ensures var r := ApplyFrom(rules, from, src, acc, convert);
      && (r.Success? ==> r.value.Keys == acc.Keys + Touched(rules, from, src))
      && (r.Success? ==> forall k :: k in acc && k !in Touched(rules, from, src) ==> r.value[k] == acc[k])
      && (r.Success? ==>
            forall i :: from <= i < |rules| && IsSet(src, rules[i].key) ==>
              convert(rules[i].conv, src[rules[i].key]) == Success(r.value[rules[i].key]))
      && (r.Failure? <==> exists i :: from <= i && Raises(rules, src, convert, i))
      && (r.Failure? ==>
            exists i :: from <= i && Raises(rules, src, convert, i) &&
              convert(rules[i].conv, src[rules[i].key]).error == r.error &&
              forall j :: from <= j < i ==> !Raises(rules, src, convert, j))
    decreases |rules| - from
  {
    if from < |rules| {
      var rule := rules[from];
      TouchedSplit(rules, from, src);
      if IsSet(src, rule.key) {
        var converted := convert(rule.conv, src[rule.key]);
        if converted.Failure? {
          assert Raises(rules, src, convert, from);
        } else {
          ApplyFromSpec(rules, from + 1, src, acc[rule.key := converted.value], convert);
        }
      } else {
        assert !Raises(rules, src, convert, from);
        ApplyFromSpec(rules, from + 1, src, acc, convert);
      }
    }
  }

  /** `ApplyFromSpec` for the whole run. */
  lemma ApplySpec<C, V>(rules: seq<Rule<C>>, src: map<string, Json>, acc: map<string, V>,
                        convert: (C, Json) -> Result<V>)
    requires DistinctKeys(rules)
    ensures var r := Apply(rules, src, acc, convert);
      && (r.Success? ==> r.value.Keys == acc.Keys + Touched(rules, 0, src))
      && (r.Success? ==> forall k :: k in acc && k !in Touched(rules, 0, src) ==> r.value[k] == acc[k])
      && (r.Success? ==>
            forall i :: 0 <= i < |rules| && IsSet(src, rules[i].key) ==>
              convert(rules[i].conv, src[rules[i].key]) == Success(r.value[rules[i].key]))
      && (r.Failure? <==> exists i :: Raises(rules, src, convert, i))
      && (r.Failure? ==>
            exists i :: Raises(rules, src, convert, i) &&
              convert(rules[i].conv, src[rules[i].key]).error == r.error &&
              forall j :: 0 <= j < i ==> !Raises(rules, src, convert, j))
  {
    ApplyFromSpec(rules, 0, src, acc, convert);
  }

  lemma TouchedSplit<C>(rules: seq<Rule<C>>, from: nat, src: map<string, Json>)
    requires from < |rules| && DistinctKeys(rules)
    ensures Touched(rules, from, src) ==
      (if IsSet(src, rules[from].key) then {rules[from].key} else {}) + Touched(rules, from + 1, src)
    ensures rules[from].key !in Touched(rules, from + 1, src)
  {
  }

  /** `rules` lists exactly the entries of the reference table `ref`, each key once. */
  ghost predicate Tabulates<C>(rules: seq<Rule<C>>, ref: map<string, C>)
  {
    && DistinctKeys(rules)
    && (forall i :: 0 <= i < |rules| ==> rules[i].key in ref && ref[rules[i].key] == rules[i].conv)
    && (forall k :: k in ref ==> Rule(k, ref[k]) in rules)
  }

  /** A run of guarded statements started from `{}`, read through its reference
      table: a key is in the result exactly when the table names it and it is
      set in `src`, and it holds its conversion; the run raises exactly when one
      of those conversions does. */
  lemma {:induction false} ApplyTabulated<C, V>(rules: seq<Rule<C>>, ref: map<string, C>, src: map<string, Json>,
                                                convert: (C, Json) -> Result<V>)
    requires Tabulates(rules, ref)
    ensures var r := Apply(rules, src, map[], convert);
      && (r.Success? ==> forall k :: k in r.value <==> k in ref && IsSet(src, k))
      && (r.Success? ==> forall k :: k in r.value ==> k in ref && convert(ref[k], src[k]) == Success(r.value[k]))
      && (r.Failure? <==> exists k :: k in ref && IsSet(src, k) && convert(ref[k], src[k]).Failure?)
  {
    ApplySpec(rules, src, map[], convert);
    var r := Apply(rules, src, map[], convert);
    forall k | k in ref ensures exists i :: 0 <= i < |rules| && rules[i] == Rule(k, ref[k]) {
      assert Rule(k, ref[k]) in rules;
    }
    if r.Success? {
      forall k ensures k in r.value <==> k in ref && IsSet(src, k) {
        if k in r.value {
          var i :| 0 <= i < |rules| && IsSet(src, rules[i].key) && rules[i].key == k;
        }
        if k in ref && IsSet(src, k) {
          var i :| 0 <= i < |rules| && rules[i] == Rule(k, ref[k]);
          assert k in Touched(rules, 0, src);
        }
      }
      forall k | k in r.value ensures k in ref && convert(ref[k], src[k]) == Success(r.value[k]) {
        var i :| 0 <= i < |rules| && IsSet(src, rules[i].key) && rules[i].key == k;
      }
    } else {
      var i :| Raises(rules, src, convert, i);
      assert rules[i].key in ref && IsSet(src, rules[i].key);
    }
    if exists k :: k in ref && IsSet(src, k) && convert(ref[k], src[k]).Failure? {
      var k :| k in ref && IsSet(src, k) && convert(ref[k], src[k]).Failure?;
      var i :| 0 <= i < |rules| && rules[i] == Rule(k, ref[k]);
      assert Raises(rules, src, convert, i);
    }
  }
}
