/**
 * The variant builder: a single-use accumulator for the identifier, span and
 * attribute list of one enum variant, which hands the finished variant to its
 * continuation. It is itself the continuation of its attribute and payload
 * sub-builders.
 */
module Variant {
  import Codemap
  import Ast
  import Invoke

  /** What the builder has accumulated, apart from its continuation. */
  datatype BuilderState = BuilderState(id: Ast.Ident, span: Codemap.Span, attrs: seq<Ast.Attribute>)

  /** A chained configuration call: `span(s)`, or an attribute arriving through `invoke`. */
  datatype Config = SpanCall(span: Codemap.Span) | AttrCall(attr: Ast.Attribute)

  /** The state of a freshly constructed builder. */
  function Initial(name: string): (st: BuilderState)
    ensures st.id == Ast.ToIdent(name) && st.span == Codemap.DUMMY_SP && st.attrs == []
  {
    BuilderState(Ast.ToIdent(name), Codemap.DUMMY_SP, [])
  }

  /**
   * The state after one configuration call: `span(s)` overwrites the span
   * (src/variant.rs:47) and an attribute `invoke` appends it (src/variant.rs:96).
   * The methods `VariantBuilder.Span` and `VariantBuilder.InvokeAttribute` are
   * specified by this function.
   */
  function Step(st: BuilderState, c: Config): BuilderState
  {
    match c
    case SpanCall(s) => st.(span := s)
    case AttrCall(a) => st.(attrs := st.attrs + [a])
  }

  /** The state after the configuration calls `calls`, made in order. */
  function Replay(st: BuilderState, calls: seq<Config>): BuilderState
    decreases |calls|
  {
    if calls == [] then st else Replay(Step(st, calls[0]), calls[1..])
  }

  /** The attributes among `calls`, in call order. */
  function AttrsOf(calls: seq<Config>): seq<Ast.Attribute>
    decreases |calls|
  {
    if calls == [] then []
    else (if calls[0].AttrCall? then [calls[0].attr] else []) + AttrsOf(calls[1..])
  }

  /** The span of the last span call in `calls`, or `default` if there is none. */
  function LastSpanOr(default: Codemap.Span, calls: seq<Config>): Codemap.Span
    decreases |calls|
  {
    if calls == [] then default
    else if calls[|calls| - 1].SpanCall? then calls[|calls| - 1].span
    else LastSpanOr(default, calls[..|calls| - 1])
  }

  /** The variant the builder in state `st` assembles around `data`. */
  function Assemble(st: BuilderState, data: Ast.VariantData): (v: Ast.Variant)
    ensures v.span == st.span
    ensures v.node.name == st.id && v.node.attrs == st.attrs && v.node.data == data
    ensures v.node.disrExpr == Ast.None
  {
    Codemap.Respan(st.span, Ast.VariantNode(st.id, st.attrs, data, Ast.None))
  }

  /** Making one more call after `calls` is one more step. */
  lemma {:induction false} ReplaySnoc(st: BuilderState, calls: seq<Config>, c: Config)
    ensures Replay(st, calls + [c]) == Step(Replay(st, calls), c)
    decreases |calls|
  {
    if calls == [] {
      assert calls + [c] == [c];
    } else {
      assert (calls + [c])[0] == calls[0];
      assert (calls + [c])[1..] == calls[1..] + [c];
      ReplaySnoc(Step(st, calls[0]), calls[1..], c);
    }
  }

  /** Configuration calls never change the identifier, and the span is the last one set. */
  lemma {:induction false} ReplaySpan(st: BuilderState, calls: seq<Config>)
    ensures Replay(st, calls).id == st.id
    ensures Replay(st, calls).span == LastSpanOr(st.span, calls)
    decreases |calls|
  {
    if calls != [] {
      var init, last := calls[..|calls| - 1], calls[|calls| - 1];
      assert calls == init + [last];
      ReplaySnoc(st, init, last);
      ReplaySpan(st, init);
    }
  }

  /** The attributes are those already held followed by those of `calls`, in order. */
  lemma {:induction false} ReplayAttrs(st: BuilderState, calls: seq<Config>)
    ensures Replay(st, calls).attrs == st.attrs + AttrsOf(calls)
    decreases |calls|
  {
    if calls != [] {
      ReplayAttrs(Step(st, calls[0]), calls[1..]);
      if calls[0].AttrCall? {
        assert st.attrs + [calls[0].attr] + AttrsOf(calls[1..])
            == st.attrs + ([calls[0].attr] + AttrsOf(calls[1..]));
      } else {
        assert [] + AttrsOf(calls[1..]) == AttrsOf(calls[1..]);
      }
    }
  }

  /** With no span call, the span stays the default. */
  lemma {:induction false} LastSpanNone(default: Codemap.Span, calls: seq<Config>)
    requires forall i :: 0 <= i < |calls| ==> !calls[i].SpanCall?
    ensures LastSpanOr(default, calls) == default
    decreases |calls|
  {
    if calls != [] {
      LastSpanNone(default, calls[..|calls| - 1]);
    }
  }

  /** The span is the one given by the last span call: last write wins. */
  lemma {:induction false} LastSpanLast(default: Codemap.Span, calls: seq<Config>, k: nat)
    requires k < |calls| && calls[k].SpanCall?
    requires forall j :: k < j < |calls| ==> !calls[j].SpanCall?
    ensures LastSpanOr(default, calls) == calls[k].span
    decreases |calls|
  {
    if k < |calls| - 1 {
      LastSpanLast(default, calls[..|calls| - 1], k);
    }
  }

  /** n attribute invocations give exactly those n attributes, in order, duplicates kept. */
  lemma {:induction false} AttrsOfAttrCalls(calls: seq<Config>)
    requires forall i :: 0 <= i < |calls| ==> calls[i].AttrCall?
    ensures |AttrsOf(calls)| == |calls|
    ensures forall i :: 0 <= i < |calls| ==> AttrsOf(calls)[i] == calls[i].attr
    decreases |calls|
  {
    if calls != [] {
      AttrsOfAttrCalls(calls[1..]);
      assert AttrsOf(calls) == [calls[0].attr] + AttrsOf(calls[1..]);
    }
  }

  /**
   * A builder created by `new(name)`, configured by `calls` and finished with
   * `data` yields the variant built directly from those fields.
   */
  lemma {:induction false} StandaloneBuild(name: string, calls: seq<Config>, data: Ast.VariantData)
    ensures Invoke.Identity<Ast.Variant>()(Assemble(Replay(Initial(name), calls), data))
         == Codemap.Spanned(
              Ast.VariantNode(Ast.ToIdent(name), AttrsOf(calls), data, Ast.None),
              LastSpanOr(Codemap.DUMMY_SP, calls))
  {
    ReplaySpan(Initial(name), calls);
    ReplayAttrs(Initial(name), calls);
    assert [] + AttrsOf(calls) == AttrsOf(calls);
  }

  /** What `attr()` returns: an attribute builder whose continuation is the variant builder. */
  datatype AttrBuilderSeed<R> = AttrBuilderSeed(callback: VariantBuilder<R>, span: Codemap.Span)

  /** The payload shapes that go through a payload sub-builder of their own. */
  datatype DataShape = TupleShape | StructShape

  /** What `tuple()` and `struct_()` return: a payload builder whose continuation is the variant builder. */
  datatype DataBuilderSeed<R> = DataBuilderSeed(callback: VariantBuilder<R>, shape: DataShape)

  class VariantBuilder<R> {
    const callback: Ast.Variant -> R
    const id: Ast.Ident
    var span: Codemap.Span
    var attrs: seq<Ast.Attribute>

    /** The accumulated state. */
    function State(): BuilderState
      reads this
    {
      BuilderState(id, span, attrs)
    }

    constructor NewWithCallback(name: string, callback: Ast.Variant -> R)
      ensures this.callback == callback
      ensures State() == Initial(name)
    {
      this.callback := callback;
      id := Ast.ToIdent(name);
      span := Codemap.DUMMY_SP;
      attrs := [];
    }

    /** Sets the span; returns the builder for chaining. */
    method Span(s: Codemap.Span) returns (self: VariantBuilder<R>)
      modifies this
      ensures self == this
      ensures span == s && attrs == old(attrs)
      ensures State() == Step(old(State()), SpanCall(s))
    {
      span := s;
      self := this;
    }

    /** Starts an attribute whose continuation is this builder, seeded with the current span. */
    function Attr(): (seed: AttrBuilderSeed<R>)
      reads this
      ensures seed.callback == this && seed.span == span
    {
      AttrBuilderSeed(this, span)
    }

    /** Finishes the variant with the unit payload. */
    function Unit(): (r: R)
      reads this
      ensures r == BuildVariantData(Ast.UnitData)
    {
      InvokeVariantData(Ast.UnitData)
    }

    /** Starts a tuple payload whose continuation is this builder. */
    function Tuple(): (seed: DataBuilderSeed<R>)
      ensures seed.callback == this && seed.shape == TupleShape
    {
      DataBuilderSeed(this, TupleShape)
    }

    /** Starts a struct payload whose continuation is this builder. */
    function Struct(): (seed: DataBuilderSeed<R>)
      ensures seed.callback == this && seed.shape == StructShape
    {
      DataBuilderSeed(this, StructShape)
    }

    /** Assembles the variant around `data` and hands it to the continuation. */
    function BuildVariantData(data: Ast.VariantData): (r: R)
      reads this
      ensures r == callback(Assemble(State(), data))
    {
      callback(Assemble(State(), data))
    }

    /** Tags a ready-made variant node with the builder's span and hands it on. */
    function BuildVariantNode(node: Ast.VariantNode): (r: R)
      reads this
      ensures r == Build(Codemap.Spanned(node, span))
      ensures node == Ast.VariantNode(id, attrs, node.data, Ast.None) ==> r == BuildVariantData(node.data)
    {
      Build(Codemap.Respan(span, node))
    }

    /** Hands a ready-made variant to the continuation unchanged. */
    function Build(v: Ast.Variant): (r: R)
      ensures r == callback(v)
    {
      callback(v)
    }

    /** The builder as the continuation of an attribute: appends it and returns the builder. */
    method InvokeAttribute(a: Ast.Attribute) returns (self: VariantBuilder<R>)
      modifies this
      ensures self == this
      ensures attrs == old(attrs) + [a] && span == old(span)
      ensures State() == Step(old(State()), AttrCall(a))
    {
      attrs := attrs + [a];
      self := this;
    }

    /** The builder as the continuation of a payload: finishes the variant with it. */
    function InvokeVariantData(data: Ast.VariantData): (r: R)
      reads this
      ensures r == BuildVariantData(data)
    {
      BuildVariantData(data)
    }
  }

  /** A builder driven standalone: its continuation is the identity. */
  method New(name: string) returns (b: VariantBuilder<Ast.Variant>)
    ensures fresh(b)
    ensures b.callback == Invoke.Identity<Ast.Variant>()
    ensures b.State() == Initial(name)
  {
    b := new VariantBuilder.NewWithCallback(name, Invoke.Identity<Ast.Variant>());
  }

  /** Makes the configuration calls `calls` on `b`, in order. */
  method Apply<R>(b: VariantBuilder<R>, calls: seq<Config>)
    modifies b
    ensures b.State() == Replay(old(b.State()), calls)
    decreases |calls|
  {
    if calls != [] {
      var c := calls[0];
      match c {
        case SpanCall(s) =>
          var _ := b.Span(s);
        case AttrCall(a) =>
          var _ := b.InvokeAttribute(a);
      }
      Apply(b, calls[1..]);
    }
  }

  /**
   * A builder made by `New(name)`, configured by `calls` and finished with
   * `data` yields the variant built directly from those fields.
   */
  method BuildStandalone(name: string, calls: seq<Config>, data: Ast.VariantData) returns (v: Ast.Variant)
    ensures v == Codemap.Spanned(
                   Ast.VariantNode(Ast.ToIdent(name), AttrsOf(calls), data, Ast.None),
                   LastSpanOr(Codemap.DUMMY_SP, calls))
  {
    var b := New(name);
    Apply(b, calls);
    StandaloneBuild(name, calls, data);
    v := b.BuildVariantData(data);
  }

  /** With the identity continuation, finishing returns exactly the assembled variant. */
  lemma IdentityBuildVariantData(b: VariantBuilder<Ast.Variant>, data: Ast.VariantData)
    requires forall v :: b.callback(v) == v
    ensures b.BuildVariantData(data) == Assemble(b.State(), data)
  {
  }
}
