/** `AIQueryBuilder`: a model together with deferred `where` conditions, which
    `execute` writes into the model's attributes, in the order the keys were
    first recorded, before the model executes. The conditions are a PHP array:
    a sequence of (key, value) pairs with distinct keys, where recording a key
    again replaces its value in place. */
module QueryBuilder {
  import opened Values
  import opened Exceptions
  import Providers
  import opened Models

  type Conditions = seq<(string, Value)>

  function KeysOf(c: Conditions): (ks: seq<string>)
    ensures |ks| == |c|
    ensures forall i :: 0 <= i < |c| ==> ks[i] == c[i].0
  {
    seq(|c|, i requires 0 <= i < |c| => c[i].0)
  }

  predicate Distinct(ks: seq<string>)
  {
    forall i, j :: 0 <= i < j < |ks| ==> ks[i] != ks[j]
  }

  /** The representation invariant of a PHP array: no key occurs twice. */
  predicate DistinctKeys(c: Conditions)
  {
    Distinct(KeysOf(c))
  }

  /** The value recorded for `k`: that of the last pair with key `k`. */
  function LastValue(c: Conditions, k: string): Option<Value>
    decreases |c|
  {
    if c == [] then None
    else if c[|c| - 1].0 == k then Some(c[|c| - 1].1)
    else LastValue(c[..|c| - 1], k)
  }

  lemma Snoc(c: Conditions, p: (string, Value))
    ensures (c + [p])[..|c|] == c
    ensures KeysOf(c + [p]) == KeysOf(c) + [p.0]
    ensures forall k :: LastValue(c + [p], k) == if p.0 == k then Some(p.1) else LastValue(c, k)
  {
    assert (c + [p])[..|c|] == c;
  }

  lemma DistinctSnoc(ks: seq<string>, k: string)
    requires k !in ks
    ensures Distinct(ks) ==> Distinct(ks + [k])
  {
  }

  /** `$conditions[$k] = $v`: the value for `k` becomes `v`; a new key goes to the
      end and a known key keeps its position; every other key keeps its value. */
  function Record(c: Conditions, k: string, v: Value): (r: Conditions)
    ensures KeysOf(r) == if k in KeysOf(c) then KeysOf(c) else KeysOf(c) + [k]
    ensures LastValue(r, k) == Some(v)
    ensures forall k' :: k' != k ==> LastValue(r, k') == LastValue(c, k')
    ensures DistinctKeys(c) ==> DistinctKeys(r)
    decreases |c|
  {
    if k !in KeysOf(c) then
      Snoc(c, (k, v));
      DistinctSnoc(KeysOf(c), k);
      c + [(k, v)]
    else
      var init, last := c[..|c| - 1], c[|c| - 1];
      assert c == init + [last];
      Snoc(init, last);
      if last.0 == k then
        Snoc(init, (k, v));
        init + [(k, v)]
      else
        var r' := Record(init, k, v);
        Snoc(r', last);
        r' + [last]
  }

  /** The attributes after the conditions are written in order: every recorded
      key holds its recorded value, overriding what was there, and every other
      key is as it was. */
  function ApplyConditions(a: Attributes, c: Conditions): (r: Attributes)
    ensures forall k :: LastValue(c, k).Some? ==> k in r && r[k] == LastValue(c, k).value
    ensures forall k :: LastValue(c, k).None? ==> (k in r <==> k in a)
    ensures forall k :: LastValue(c, k).None? && k in a ==> r[k] == a[k]
    decreases |c|
  {
    if c == [] then a
    else ApplyConditions(a, c[..|c| - 1])[c[|c| - 1].0 := c[|c| - 1].1]
  }

  /** The attributes after the conditions are applied are fixed by the old
      attributes and the recorded values alone. */
  lemma ApplyConditionsDetermined(a: Attributes, b: Attributes, c: Conditions)
    requires forall k :: LastValue(c, k).None? ==> (k in a <==> k in b) && (k in a ==> a[k] == b[k])
    ensures ApplyConditions(a, c) == ApplyConditions(b, c)
  {
    var ra, rb := ApplyConditions(a, c), ApplyConditions(b, c);
    assert ra.Keys == rb.Keys by {
      forall k ensures k in ra <==> k in rb {
        if LastValue(c, k).None? {
          assert (k in ra <==> k in a) && (k in rb <==> k in b);
        }
      }
    }
    forall k | k in ra ensures ra[k] == rb[k] {
      if LastValue(c, k).None? {
        assert k in a && ra[k] == a[k] && rb[k] == b[k];
      }
    }
  }

  /** Applying the conditions a second time changes nothing. */
  lemma ApplyConditionsIdempotent(a: Attributes, c: Conditions)
    ensures ApplyConditions(ApplyConditions(a, c), c) == ApplyConditions(a, c)
  {
    ApplyConditionsDetermined(ApplyConditions(a, c), a, c);
  }

  /** A second execute re-applies the conditions: a write made between two
      executes is as if it had been made before the first, so it survives only
      where no condition names its key. */
  lemma SecondExecuteReapplies(a: Attributes, c: Conditions, k: string, v: Value)
    ensures ApplyConditions(ApplyConditions(a, c)[k := v], c) == ApplyConditions(a[k := v], c)
  {
    ApplyConditionsDetermined(ApplyConditions(a, c)[k := v], a[k := v], c);
  }

  class AIQueryBuilder {
    const model: Prompt
    var conditions: Conditions

    /** The conditions are a PHP array: no key is recorded twice. `Where` keeps
        this invariant; no other contract depends on it. */
    ghost predicate Valid()
      reads this
    {
      DistinctKeys(conditions)
    }

    constructor (model: Prompt)
      ensures this.model == model
      ensures conditions == [] && Valid()
    {
      this.model := model;
      conditions := [];
    }

    /** `AIModel::query()` (and `newQuery()`, which ignores its receiver): a
        builder over a new model with no attributes, bound to the default provider. */
    static method Query(config: Config) returns (b: AIQueryBuilder)
      ensures fresh(b) && fresh(b.model) && b.Valid()
      ensures b.model.attributes == map[]
      ensures b.model.provider == Providers.Resolve(config, Providers.DefaultProviderName(config))
      ensures b.conditions == []
    {
      var m := new Prompt(config);
      b := new AIQueryBuilder(m);
    }

    /** `where`: records the condition and returns the builder. */
    method Where(attribute: string, value: Value) returns (self: AIQueryBuilder)
      requires Valid()
      modifies this`conditions
      ensures Valid() && self == this
      ensures conditions == Record(old(conditions), attribute, value)
    {
      conditions := Record(conditions, attribute, value);
      self := this;
    }

    /** The delegating setters act on the model exactly as the model's own
        setters do, and return the model rather than the builder. */
    method SetModel(m: string) returns (r: Prompt)
      modifies model`attributes
      ensures r == model
      ensures model.attributes == WithModel(old(model.attributes), m)
    {
      r := model.SetModel(m);
    }

    method AddContent(content: string) returns (r: Prompt)
      modifies model`attributes
      ensures r == model
      ensures model.attributes == WithAddedContent(old(model.attributes), content)
    {
      r := model.AddContent(content);
    }

    method SetMaxTokens(maxTokens: Int64) returns (r: Prompt)
      modifies model`attributes
      ensures r == model
      ensures model.attributes == WithMaxTokens(old(model.attributes), maxTokens)
    {
      r := model.SetMaxTokens(maxTokens);
    }

    /** `execute`: writes every condition into the model through `__set`, then
        returns what the model's `execute` returns on the updated attributes.
        The conditions are kept. */
    method Execute(world: Providers.World) returns (r: Outcome)
      modifies model`attributes
      ensures conditions == old(conditions)
      ensures model.attributes == ApplyConditions(old(model.attributes), conditions)
      ensures r == Providers.Dispatch(model.provider, model.attributes, world)
    {
      var i := 0;
      while i < |conditions|
        invariant 0 <= i <= |conditions|
        invariant model.attributes == ApplyConditions(old(model.attributes), conditions[..i])
      {
        var (k, v) := conditions[i];
        model.SetAttribute(k, v);
        assert conditions[..i + 1][..i] == conditions[..i];
        i := i + 1;
      }
      assert conditions[..|conditions|] == conditions;
      r := model.Execute(world);
    }
  }

  /** What a caller can conclude from the contracts alone: on a fresh builder,
      `where('model', w)` followed by `addContent(c)` and `setModel(m)` executes
      with content `c` and model `w`: the condition overrides the later setter. */
  method WhereOverridesLaterSetter(config: Config, world: Providers.World, w: Value, c: string, m: string)
    returns (b: AIQueryBuilder, r: Outcome)
    ensures fresh(b)
    ensures b.model.attributes == map[ContentKey := Str(c), ModelKey := w]
    ensures r == Providers.Dispatch(b.model.provider, b.model.attributes, world)
  {
    b := AIQueryBuilder.Query(config);
    var self := b.Where(ModelKey, w);
    assert b.conditions == [(ModelKey, w)];
    var p := b.AddContent(c);
    p := b.SetModel(m);
    assert b.model.attributes == map[ContentKey := Str(c), ModelKey := Str(m)];
    r := b.Execute(world);
    assert LastValue(b.conditions, ModelKey) == Some(w);
    assert LastValue(b.conditions, ContentKey).None?;
    assert b.model.attributes.Keys == {ContentKey, ModelKey};
  }
}
