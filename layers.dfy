/**
 * The 13 FECR layers. Calling a layer appends its name to the list held
 * under "fecr_trace" in the context, creating the list when the key is
 * absent.
 */
module Layers {
  import opened Wrappers
  import opened Context

  const TRACE_KEY: string := "fecr_trace"

  datatype Layer = Layer(name: string)

  /** The value under the trace key is not a list, so it has no `append`. */
  datatype LayerError = TraceNotAList(found: Value)

  /** `context.setdefault("fecr_trace", []).append(name)`, on the dictionary's value. */
  function WithTrace(entries: map<string, Value>, name: string): (r: Result<map<string, Value>, LayerError>)
    ensures r.Err? <==> TRACE_KEY in entries && !entries[TRACE_KEY].Items?
    ensures r.Ok? ==> r.value.Keys == entries.Keys + {TRACE_KEY} && r.value[TRACE_KEY].Items?
  {
    if TRACE_KEY !in entries then Ok(entries[TRACE_KEY := Items([Text(name)])])
    else
      match entries[TRACE_KEY]
      case Items(trace) => Ok(entries[TRACE_KEY := Items(trace + [Text(name)])])
      case other => Err(TraceNotAList(other))
  }

  /**
   * A call succeeds unless the trace key holds a non-list. It then adds
   * exactly the layer's name at the end of the trace (a fresh one-entry
   * list if there was none), keeps the earlier entries, and changes no
   * other key.
   */
  lemma WithTraceSpec(entries: map<string, Value>, name: string)
    ensures var r := WithTrace(entries, name);
      && (r.Err? <==> TRACE_KEY in entries && !entries[TRACE_KEY].Items?)
      && (r.Ok? ==>
            && r.value.Keys == entries.Keys + {TRACE_KEY}
            && (forall k :: k in entries && k != TRACE_KEY ==> r.value[k] == entries[k])
            && r.value[TRACE_KEY].Items?
            && var before := if TRACE_KEY in entries then entries[TRACE_KEY].items else [];
               r.value[TRACE_KEY].items == before + [Text(name)])
  {
  }

  /** `Layer.__call__`: updates the context in place and hands the same context back. */
  method Call(layer: Layer, ctx: ContextState) returns (r: Result<ContextState, LayerError>)
    modifies ctx
    ensures WithTrace(old(ctx.entries), layer.name).Ok? ==>
      r == Ok(ctx) && ctx.entries == WithTrace(old(ctx.entries), layer.name).value
    ensures WithTrace(old(ctx.entries), layer.name).Err? ==>
      r == Err(WithTrace(old(ctx.entries), layer.name).error) && ctx.entries == old(ctx.entries)
  {
    ghost var before := ctx.entries;
    if TRACE_KEY !in ctx.entries {
      ctx.Set(TRACE_KEY, Items([]));
    }
    match ctx.entries[TRACE_KEY]
    case Items(trace) =>
      ctx.Set(TRACE_KEY, Items(trace + [Text(layer.name)]));
      assert ctx.entries == WithTrace(before, layer.name).value by {
        if TRACE_KEY !in before {
          assert trace + [Text(layer.name)] == [Text(layer.name)];
        }
      }
      r := Ok(ctx);
    case other =>
      r := Err(TraceNotAList(other));
  }

  /** `FECR_LAYERS`, in processing order (the names use U+2011, a non-breaking hyphen). */
  function FecrLayers(): (layers: seq<Layer>)
    ensures |layers| == 13
    ensures forall i, j :: 0 <= i < j < |layers| ==> layers[i].name != layers[j].name
  {
    [Layer("Echo‑1"), Layer("Low‑Pass‑1"), Layer("AM‑Mod‑1"),
     Layer("Harmonic‑1"), Layer("Phase‑Invert‑1"), Layer("Envelope‑1"),
     Layer("Echo‑2"), Layer("AM‑Mod‑2"), Layer("Low‑Pass‑2"),
     Layer("Harmonic‑2"), Layer("Phase‑Invert‑2"), Layer("Echo‑3"),
     Layer("Envelope‑2")]
  }

  function Names(layers: seq<Layer>): (names: seq<string>)
    ensures |names| == |layers|
    ensures forall i :: 0 <= i < |layers| ==> names[i] == layers[i].name
  {
    seq(|layers|, i requires 0 <= i < |layers| => layers[i].name)
  }

  /** Calling `layers` one after another on a context, stopping at the first error. */
  function ApplyAll(entries: map<string, Value>, layers: seq<Layer>): (r: Result<map<string, Value>, LayerError>)
    ensures r.Err? <==> layers != [] && TRACE_KEY in entries && !entries[TRACE_KEY].Items?
    ensures r.Ok? ==> entries.Keys <= r.value.Keys
    ensures r.Ok? && layers != [] ==> TRACE_KEY in r.value && r.value[TRACE_KEY].Items?
    decreases |layers|
  {
    if layers == [] then Ok(entries)
    else
      match WithTrace(entries, layers[0].name)
      case Ok(next) => ApplyAll(next, layers[1..])
      case Err(e) => Err(e)
  }

  /** Layers called in order on a context whose trace is a list extend it by their names, in order. */
  lemma {:induction false} ApplyAllTrace(entries: map<string, Value>, trace: seq<string>, layers: seq<Layer>)
    requires TRACE_KEY in entries && entries[TRACE_KEY] == Texts(trace)
    ensures ApplyAll(entries, layers).Ok?
    ensures TRACE_KEY in ApplyAll(entries, layers).value
    ensures ApplyAll(entries, layers).value[TRACE_KEY] == Texts(trace + Names(layers))
    ensures forall k :: k in entries && k != TRACE_KEY ==>
      k in ApplyAll(entries, layers).value && ApplyAll(entries, layers).value[k] == entries[k]
    decreases |layers|
  {
    if layers == [] {
      assert trace + Names(layers) == trace;
    } else {
      var next := entries[TRACE_KEY := Texts(trace + [layers[0].name])];
      TextsAppend(trace, layers[0].name);
      assert WithTrace(entries, layers[0].name) == Ok(next);
      ApplyAllTrace(next, trace + [layers[0].name], layers[1..]);
      assert trace + [layers[0].name] + Names(layers[1..]) == trace + Names(layers);
    }
  }

  /** The FECR stack applied to a context without a trace leaves exactly the 13 names, in order. */
  lemma FecrStackTrace(entries: map<string, Value>)
    requires TRACE_KEY !in entries
    ensures ApplyAll(entries, FecrLayers()).Ok?
    ensures TRACE_KEY in ApplyAll(entries, FecrLayers()).value
    ensures ApplyAll(entries, FecrLayers()).value[TRACE_KEY] == Texts(Names(FecrLayers()))
  {
    var layers := FecrLayers();
    var first := entries[TRACE_KEY := Texts([layers[0].name])];
    assert Texts([layers[0].name]).items == [Text(layers[0].name)];
    assert WithTrace(entries, layers[0].name) == Ok(first);
    ApplyAllTrace(first, [layers[0].name], layers[1..]);
    assert [layers[0].name] + Names(layers[1..]) == Names(layers);
  }
}
