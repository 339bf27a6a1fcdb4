/** The request attribute bag: `AIModel` and its concrete subclass `Prompt`.
    `Prompt` redeclares `addContent` and `execute` with the bodies of the base
    class, so one class here models both. The functions before the class give
    the effect of each setter on the attribute map; the class's methods are
    proved to have exactly that effect, and the lemmas state what the setters
    promise when combined. */
module Models {
  import opened Values
  import opened Exceptions
  import Providers

  const ContentKey := "content"
  const ModelKey := "model"
  const MaxTokensKey := "max_tokens"

  /** `isset($this->attributes['content'])`. */
  predicate HasContent(attrs: Attributes)
  {
    IsSet(attrs, ContentKey)
  }

  /** `setContent`: the content becomes `content`, whatever it was; nothing else changes. */
  function WithContent(attrs: Attributes, content: string): (r: Attributes)
    ensures r.Keys == attrs.Keys + {ContentKey}
    ensures r[ContentKey] == Str(content)
    ensures forall k :: k in attrs && k != ContentKey ==> r[k] == attrs[k]
  {
    attrs[ContentKey := Str(content)]
  }

  /** `addContent`: when content is set, the old content (as a string), a newline
      and `content`; otherwise just `content`. Nothing else changes. */
  function WithAddedContent(attrs: Attributes, content: string): (r: Attributes)
    ensures r.Keys == attrs.Keys + {ContentKey}
    ensures HasContent(r)
    ensures HasContent(attrs) ==> r[ContentKey] == Str(ToPhpString(attrs[ContentKey]) + "\n" + content)
    ensures !HasContent(attrs) ==> r[ContentKey] == Str(content)
    ensures forall k :: k in attrs && k != ContentKey ==> r[k] == attrs[k]
  {
    if HasContent(attrs) then attrs[ContentKey := Str(ToPhpString(attrs[ContentKey]) + "\n" + content)]
    else attrs[ContentKey := Str(content)]
  }

  /** `setModel`: the model becomes `model`; nothing else changes. */
  function WithModel(attrs: Attributes, model: string): (r: Attributes)
    ensures r.Keys == attrs.Keys + {ModelKey}
    ensures r[ModelKey] == Str(model)
    ensures forall k :: k in attrs && k != ModelKey ==> r[k] == attrs[k]
  {
    attrs[ModelKey := Str(model)]
  }

  /** `setMaxTokens`: max_tokens becomes `maxTokens`; nothing else changes. */
  function WithMaxTokens(attrs: Attributes, maxTokens: Int64): (r: Attributes)
    ensures r.Keys == attrs.Keys + {MaxTokensKey}
    ensures r[MaxTokensKey] == Int(maxTokens)
    ensures forall k :: k in attrs && k != MaxTokensKey ==> r[k] == attrs[k]
  {
    attrs[MaxTokensKey := Int(maxTokens)]
  }

  /** Adding content never overwrites it: content already set is kept as a
      prefix, followed by a newline and the new text. */
  lemma AddContentKeepsPrefix(attrs: Attributes, content: string)
    requires HasContent(attrs)
    ensures var old_ := ToPhpString(attrs[ContentKey]);
            var new_ := WithAddedContent(attrs, content)[ContentKey].s;
            && old_ + "\n" <= new_
            && new_[|old_| + 1..] == content
  {
  }

  /** Two additions to a model without content join the two texts with a newline. */
  lemma AddContentTwice(attrs: Attributes, a: string, b: string)
    requires !HasContent(attrs)
    ensures WithAddedContent(WithAddedContent(attrs, a), b)[ContentKey] == Str(a + "\n" + b)
  {
  }

  /** Successive `addContent` calls, in order. */
  function AddEach(attrs: Attributes, lines: seq<string>): Attributes
    decreases |lines|
  {
    if lines == [] then attrs else AddEach(WithAddedContent(attrs, lines[0]), lines[1..])
  }

  /** The lines joined with newlines. */
  function JoinLines(lines: seq<string>): string
    requires |lines| > 0
  {
    if |lines| == 1 then lines[0] else lines[0] + "\n" + JoinLines(lines[1..])
  }

  /** Any number of additions to a model accumulates every line: from no
      content the result is the lines joined by newlines, from content `s` it is
      `s`, a newline and that join. No other key changes. */
  lemma {:induction false} AddEachJoinsLines(attrs: Attributes, lines: seq<string>)
    requires |lines| > 0
    ensures var r := AddEach(attrs, lines);
            && r.Keys == attrs.Keys + {ContentKey}
            && (forall k :: k in attrs && k != ContentKey ==> r[k] == attrs[k])
            && (!HasContent(attrs) ==> r[ContentKey] == Str(JoinLines(lines)))
            && (HasContent(attrs) ==> r[ContentKey] == Str(ToPhpString(attrs[ContentKey]) + "\n" + JoinLines(lines)))
    decreases |lines|
  {
    var next := WithAddedContent(attrs, lines[0]);
    if |lines| > 1 {
      AddEachJoinsLines(next, lines[1..]);
      assert AddEach(attrs, lines) == AddEach(next, lines[1..]);
      if HasContent(attrs) {
        var s := ToPhpString(attrs[ContentKey]);
        assert (s + "\n" + lines[0]) + "\n" + JoinLines(lines[1..]) == s + "\n" + JoinLines(lines);
      }
    } else {
      assert lines[1..] == [];
      assert AddEach(attrs, lines) == AddEach(next, []) == next;
    }
  }

  /** setModel, setMaxTokens and setContent are last-write-wins on their own key. */
  lemma SetterLastWriteWins(attrs: Attributes, m1: string, m2: string, n1: Int64, n2: Int64, c1: string, c2: string)
    ensures WithModel(WithModel(attrs, m1), m2) == WithModel(attrs, m2)
    ensures WithMaxTokens(WithMaxTokens(attrs, n1), n2) == WithMaxTokens(attrs, n2)
    ensures WithContent(WithContent(attrs, c1), c2) == WithContent(attrs, c2)
  {
  }

  /** setModel and setMaxTokens commute with addContent: the order of the calls
      does not change the final attributes. */
  lemma SettersCommuteWithAddContent(attrs: Attributes, content: string, model: string, maxTokens: Int64)
    ensures WithAddedContent(WithModel(attrs, model), content) == WithModel(WithAddedContent(attrs, content), model)
    ensures WithAddedContent(WithMaxTokens(attrs, maxTokens), content) == WithMaxTokens(WithAddedContent(attrs, content), maxTokens)
  {
    var a := WithAddedContent(WithModel(attrs, model), content);
    var b := WithModel(WithAddedContent(attrs, content), model);
    assert HasContent(WithModel(attrs, model)) == HasContent(attrs);
    assert a.Keys == b.Keys;
    assert forall k :: k in a ==> a[k] == b[k];
    var c := WithAddedContent(WithMaxTokens(attrs, maxTokens), content);
    var d := WithMaxTokens(WithAddedContent(attrs, content), maxTokens);
    assert HasContent(WithMaxTokens(attrs, maxTokens)) == HasContent(attrs);
    assert c.Keys == d.Keys;
    assert forall k :: k in c ==> c[k] == d[k];
  }

  /** A concrete model: `Prompt`, with the members it inherits from `AIModel`. */
  class Prompt {
    var attributes: Attributes
    var provider: Option<Providers.Provider>

    /** `__construct($attributes = [])`: the attributes are stored verbatim and
        the provider is the configured default provider. */
    constructor (config: Config, attributes: Attributes := map[])
      ensures this.attributes == attributes
      ensures provider == Providers.Resolve(config, Providers.DefaultProviderName(config))
    {
      this.attributes := attributes;
      provider := Providers.Resolve(config, Providers.DefaultProviderName(config));
    }

    /** `setProvider`: rebinds the provider only, and returns the model. */
    method SetProvider(name: string, config: Config) returns (self: Prompt)
      modifies this`provider
      ensures self == this
      ensures provider == Providers.Resolve(config, name)
      ensures attributes == old(attributes)
    {
      provider := Providers.Resolve(config, name);
      self := this;
    }

    /** `__get`: the stored value, or null when the key is absent or holds null. */
    function GetAttribute(key: string): (v: Value)
      reads this
      ensures IsSet(attributes, key) ==> v == attributes[key]
      ensures !IsSet(attributes, key) ==> v == Null
    {
      if key in attributes then attributes[key] else Null
    }

    /** `__set`: stores `value` under `key` and changes nothing else. */
    method SetAttribute(key: string, value: Value)
      modifies this`attributes
      ensures attributes == old(attributes)[key := value]
      ensures attributes.Keys == old(attributes).Keys + {key}
      ensures forall k :: k in old(attributes) && k != key ==> attributes[k] == old(attributes)[k]
    {
      attributes := attributes[key := value];
    }

    /** `execute`: the bound provider's result on the current attributes. */
    method Execute(world: Providers.World) returns (r: Outcome)
      ensures r == Providers.Dispatch(provider, attributes, world)
    {
      r := Providers.Dispatch(provider, attributes, world);
    }

    method SetContent(content: string) returns (self: Prompt)
      modifies this`attributes
      ensures self == this
      ensures attributes == WithContent(old(attributes), content)
    {
      attributes := attributes[ContentKey := Str(content)];
      self := this;
    }

    method AddContent(content: string) returns (self: Prompt)
      modifies this`attributes
      ensures self == this
      ensures attributes == WithAddedContent(old(attributes), content)
    {
      if ContentKey in attributes && attributes[ContentKey] != Null {
        attributes := attributes[ContentKey := Str(ToPhpString(attributes[ContentKey]) + "\n" + content)];
      } else {
        attributes := attributes[ContentKey := Str(content)];
      }
      self := this;
    }

    method SetModel(model: string) returns (self: Prompt)
      modifies this`attributes
      ensures self == this
      ensures attributes == WithModel(old(attributes), model)
    {
      attributes := attributes[ModelKey := Str(model)];
      self := this;
    }

    method SetMaxTokens(maxTokens: Int64) returns (self: Prompt)
      modifies this`attributes
      ensures self == this
      ensures attributes == WithMaxTokens(old(attributes), maxTokens)
    {
      attributes := attributes[MaxTokensKey := Int(maxTokens)];
      self := this;
    }
  }

  /** What a caller can conclude from the setters' contracts alone: on a fresh
      prompt, `addContent(a)->setModel(m1)->addContent(b)->setModel(m2)` joins
      the two texts with a newline and keeps the last model, and every call of
      the chain acts on the same prompt. */
  method ChainedSetters(config: Config, a: string, m1: string, b: string, m2: string) returns (p: Prompt)
    ensures fresh(p)
    ensures p.attributes == map[ContentKey := Str(a + "\n" + b), ModelKey := Str(m2)]
  {
    p := new Prompt(config);
    var q := p.AddContent(a);
    assert q == p && p.attributes == map[ContentKey := Str(a)];
    q := q.SetModel(m1);
    q := q.AddContent(b);
    assert q == p && p.attributes[ContentKey] == Str(a + "\n" + b);
    q := q.SetModel(m2);
    assert p.attributes.Keys == {ContentKey, ModelKey};
  }
}
