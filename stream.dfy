/** `StreamToolAggregator` and `process_stream`: reassembling a streamed
    completion into one assistant message. Text deltas are concatenated and
    stripped at the end; tool-call fragments are gathered in a dict keyed by
    their `index`, whose first fragment fills the slot and whose later
    fragments only extend the slot's argument string. */
module Stream {
  import opened Wrappers
  import opened Errors
  import opened Text
  import opened OrderedDict
  import opened Messages

  /** One streamed tool-call fragment (`ChoiceDeltaToolCall`). */
  datatype ToolCallDelta = ToolCallDelta(index: int, id: Option<string>, name: Option<string>, arguments: Option<string>)

  /** `chunk.choices[i].delta` */
  datatype Delta = Delta(content: Option<string>, toolCalls: Option<seq<ToolCallDelta>>)

  datatype Chunk = Chunk(choices: seq<Delta>)

  /** `final_tool_calls`: fragment index to the slot gathered for it. */
  type Slots = Dict<int, ToolCallDelta>

  /** Every slot is stored under its own fragment index. */
  predicate SlotsValid(slots: Slots)
  {
    slots.Valid()
    && forall i :: 0 <= i < |slots.keys| ==> slots.values[i].index == slots.keys[i]
  }

  /** `str + None` */
  const ConcatNone := TypeError("can only concatenate str (not \"NoneType\") to str")

  /** The slot after a later fragment `f`: `(old or "") + f.arguments`. */
  function Extend(slot: ToolCallDelta, f: ToolCallDelta): (r: Result<ToolCallDelta, Error>)
    ensures r.Success? <==> f.arguments.Some?
    ensures r.Success? ==> r.value.index == slot.index && r.value.id == slot.id && r.value.name == slot.name
    ensures r.Success? ==> r.value.arguments == Some(OrEmpty(slot.arguments) + f.arguments.value)
  {
    if f.arguments.None? then Failure(ConcatNone)
    else Success(slot.(arguments := Some(OrEmpty(slot.arguments) + f.arguments.value)))
  }

  /** `StreamToolAggregator.add(f)` */
  function AddFragment(slots: Slots, f: ToolCallDelta): (r: Result<Slots, Error>)
    requires SlotsValid(slots)
    ensures r.Success? ==> SlotsValid(r.value)
    ensures r.Failure? <==> f.index in slots.keys && f.arguments.None?
  {
    if f.index !in slots.keys then
      var r := slots.Set(f.index, f);
      SnocValid(slots, f);
      Success(r)
    else
      var e := Extend(slots.Get(f.index).value, f);
      if e.Failure? then Failure(e.error)
      else
        ReplaceValid(slots, f.index, e.value);
        Success(slots.Set(f.index, e.value))
  }

  lemma {:induction false} SnocValid(slots: Slots, f: ToolCallDelta)
    requires SlotsValid(slots) && f.index !in slots.keys
    ensures SlotsValid(slots.Set(f.index, f))
  {
    assert IndexOf(slots.keys, f.index).None?;
  }

  lemma {:induction false} ReplaceValid(slots: Slots, k: int, s: ToolCallDelta)
    requires SlotsValid(slots) && k in slots.keys && s.index == k
    ensures SlotsValid(slots.Set(k, s))
  {
    var i := IndexOf(slots.keys, k).value;
    assert slots.Set(k, s) == Dict(slots.keys, slots.values[i := s]);
  }

  /** `add` applied to each fragment of `fs` in turn; the first failure
      propagates. */
  function AddAll(slots: Slots, fs: seq<ToolCallDelta>): (r: Result<Slots, Error>)
    requires SlotsValid(slots)
    ensures r.Success? ==> SlotsValid(r.value)
  {
    if fs == [] then Success(slots)
    else
      var p := AddAll(slots, fs[..|fs| - 1]);
      if p.Failure? then p else AddFragment(p.value, fs[|fs| - 1])
  }

  /** A gathered slot as a tool call of the assistant message. */
  function AsToolCall(v: ToolCallDelta): ToolCall
  {
    ToolCall(v.id, v.name, v.arguments)
  }

  function AsToolCalls(vs: seq<ToolCallDelta>): (r: seq<ToolCall>)
    ensures |r| == |vs| && forall i :: 0 <= i < |r| ==> r[i] == AsToolCall(vs[i])
  {
    if vs == [] then [] else AsToolCalls(vs[..|vs| - 1]) + [AsToolCall(vs[|vs| - 1])]
  }

  /** The state `process_stream` carries from chunk to chunk:
      `message_content`, the aggregator's slots, and when
      `first_response_time` was taken (the position of that chunk; the time
      itself is not modelled). */
  datatype StreamState = StreamState(content: string, slots: Slots, first: Option<nat>)

  const NoChoices := IndexError("list index out of range")

  /** The truth value of `delta.tool_calls`. */
  function FragmentsOf(d: Delta): seq<ToolCallDelta>
  {
    if d.toolCalls.Some? then d.toolCalls.value else []
  }

  /** The body of the `for chunk in stream` loop, for the chunk at position `i`. */
  function Step(st: StreamState, chunk: Chunk, i: nat): (r: Result<StreamState, Error>)
    requires SlotsValid(st.slots)
    ensures chunk.choices == [] ==> r == Failure(NoChoices)
    ensures r.Success? ==> SlotsValid(r.value.slots) && r.value.first.Some?
                           && (st.first.Some? ==> r.value.first == st.first)
                           && st.content <= r.value.content
  {
    if chunk.choices == [] then Failure(NoChoices)
    else
      var delta := chunk.choices[0];
      var first := if st.first.None? then Some(i) else st.first;
      var content := if delta.content.Some? && delta.content.value != "" then st.content + delta.content.value
                     else st.content;
      var slots := AddAll(st.slots, FragmentsOf(delta));
      if slots.Failure? then Failure(slots.error)
      else Success(StreamState(content, slots.value, first))
  }

  /** The state after the loop has run over `chunks`. */
  function Consume(chunks: seq<Chunk>): (r: Result<StreamState, Error>)
    ensures r.Success? ==> SlotsValid(r.value.slots)
  {
    if chunks == [] then Success(StreamState("", Empty(), None))
    else
      var p := Consume(chunks[..|chunks| - 1]);
      if p.Failure? then p else Step(p.value, chunks[|chunks| - 1], |chunks| - 1)
  }

  /** What `process_stream` returns: the assistant message and the position
      of the chunk at which `first_response_time` was taken. */
  function StreamResult(chunks: seq<Chunk>): Result<(Message, Option<nat>), Error>
  {
    var st := Consume(chunks);
    if st.Failure? then Failure(st.error)
    else Success((AssistantMessage(Strip(st.value.content), Some(AsToolCalls(st.value.slots.values))), st.value.first))
  }

  /** The indices of the fragments `fs`, in arrival order. */
  function Indices(fs: seq<ToolCallDelta>): (r: seq<int>)
    ensures |r| == |fs| && forall i :: 0 <= i < |fs| ==> r[i] == fs[i].index
  {
    if fs == [] then [] else Indices(fs[..|fs| - 1]) + [fs[|fs| - 1].index]
  }

  /** The first fragment of `fs` with index `k`. */
  function FirstWith(fs: seq<ToolCallDelta>, k: int): (r: Option<ToolCallDelta>)
    ensures r.None? <==> forall i :: 0 <= i < |fs| ==> fs[i].index != k
    ensures r.Some? ==> exists i :: 0 <= i < |fs| && fs[i] == r.value && r.value.index == k
                           && forall j :: 0 <= j < i ==> fs[j].index != k
  {
    if fs == [] then None
    else
      var p := FirstWith(fs[..|fs| - 1], k);
      if p.Some? then
        assert forall i :: 0 <= i < |fs| - 1 ==> fs[..|fs| - 1][i] == fs[i];
        p
      else if fs[|fs| - 1].index == k then Some(fs[|fs| - 1])
      else None
  }

  /** The argument pieces the fragments with index `k` carry, in arrival
      order (`None` counts as the empty string). */
  function Pieces(fs: seq<ToolCallDelta>, k: int): seq<string>
  {
    if fs == [] then []
    else
      var p := Pieces(fs[..|fs| - 1], k);
      if fs[|fs| - 1].index == k then p + [OrEmpty(fs[|fs| - 1].arguments)] else p
  }

  /** Fragment `j` of `fs` arrives when its index already has a slot. */
  predicate Later(slots: Slots, fs: seq<ToolCallDelta>, j: nat)
    requires j < |fs|
  {
    fs[j].index in slots.keys || fs[j].index in Indices(fs[..j])
  }

  /** Once `add` has failed, the failure is what the whole run raises. */
  lemma {:induction false} AddAllFailed(slots: Slots, fs: seq<ToolCallDelta>, j: nat)
    requires SlotsValid(slots) && j <= |fs| && AddAll(slots, fs[..j]).Failure?
    ensures AddAll(slots, fs) == AddAll(slots, fs[..j])
    decreases |fs| - j
  {
    if j < |fs| {
      assert fs[..j + 1][..j] == fs[..j];
      AddAllFailed(slots, fs, j + 1);
    } else {
      assert fs[..j] == fs;
    }
  }

  /** A later fragment touches only its own slot. */
  lemma {:induction false} AddFragmentOthers(slots: Slots, f: ToolCallDelta, k: int)
    requires SlotsValid(slots) && AddFragment(slots, f).Success? && k != f.index
    ensures AddFragment(slots, f).value.Get(k) == slots.Get(k)
  {
    if f.index !in slots.keys {
      SetGet(slots, f.index, f, k);
    } else {
      SetGet(slots, f.index, Extend(slots.Get(f.index).value, f).value, k);
    }
  }

  /** Slots are created in the order their indices first arrive; existing
      slots keep their place. */
  lemma {:induction false} AddAllKeyOrder(slots: Slots, fs: seq<ToolCallDelta>)
    requires SlotsValid(slots) && AddAll(slots, fs).Success?
    ensures AddAll(slots, fs).value.keys == AppendNew(slots.keys, Indices(fs))
    decreases |fs|
  {
    if fs != [] {
      var n := |fs|;
      AddAllKeyOrder(slots, fs[..n - 1]);
      assert Indices(fs)[..n - 1] == Indices(fs[..n - 1]);
    }
  }

  /** Every fragment with no arguments opens a new slot. */
  predicate NoneLater(slots: Slots, fs: seq<ToolCallDelta>)
  {
    forall j :: 0 <= j < |fs| && fs[j].arguments.None? ==> !Later(slots, fs, j)
  }

  lemma {:induction false} NoneLaterSnoc(slots: Slots, fs: seq<ToolCallDelta>)
    requires fs != []
    ensures NoneLater(slots, fs)
       <==> NoneLater(slots, fs[..|fs| - 1])
            && (fs[|fs| - 1].arguments.None? ==> !Later(slots, fs, |fs| - 1))
  {
    var pre := fs[..|fs| - 1];
    assert forall j :: 0 <= j < |pre| ==> pre[j] == fs[j] && pre[..j] == fs[..j];
    assert forall j :: 0 <= j < |pre| ==> (Later(slots, pre, j) <==> Later(slots, fs, j));
  }

  /** The slots after a run hold exactly the old indices and those that arrived. */
  lemma {:induction false} AddAllKeys(slots: Slots, fs: seq<ToolCallDelta>, k: int)
    requires SlotsValid(slots) && AddAll(slots, fs).Success?
    ensures k in AddAll(slots, fs).value.keys <==> k in slots.keys || k in Indices(fs)
  {
    AddAllKeyOrder(slots, fs);
    AppendNewElements(slots.keys, Indices(fs));
  }

  /** `add` fails exactly on a fragment with no arguments arriving for an
      index that already has a slot. */
  lemma {:induction false} AddAllSucceeds(slots: Slots, fs: seq<ToolCallDelta>)
    requires SlotsValid(slots)
    ensures AddAll(slots, fs).Success? <==> NoneLater(slots, fs)
    decreases |fs|
  {
    if fs != [] {
      var n := |fs|;
      var pre := fs[..n - 1];
      AddAllSucceeds(slots, pre);
      NoneLaterSnoc(slots, fs);
      if AddAll(slots, pre).Success? {
        AddAllKeys(slots, pre, fs[n - 1].index);
        assert fs[..n - 1] == pre;
      }
    }
  }

  /** The slot of index `k` keeps the id and name of the first fragment that
      created it. */
  lemma {:induction false} AddAllFirstFragment(slots: Slots, fs: seq<ToolCallDelta>, k: int)
    requires SlotsValid(slots) && AddAll(slots, fs).Success? && k !in slots.keys
    requires FirstWith(fs, k).Some?
    ensures AddAll(slots, fs).value.Get(k).Some?
    ensures AddAll(slots, fs).value.Get(k).value.id == FirstWith(fs, k).value.id
    ensures AddAll(slots, fs).value.Get(k).value.name == FirstWith(fs, k).value.name
    decreases |fs|
  {
    var n := |fs|;
    var pre := fs[..n - 1];
    var p := AddAll(slots, pre).value;
    var f := fs[n - 1];
    var r := AddAll(slots, fs).value;
    AddAllKeyOrder(slots, pre);
    AppendNewElements(slots.keys, Indices(pre));
    if FirstWith(pre, k).Some? {
      AddAllFirstFragment(slots, pre, k);
      if f.index == k {
        SetGet(p, k, Extend(p.Get(k).value, f).value, k);
      } else {
        AddFragmentOthers(p, f, k);
      }
    } else {
      assert f.index == k;
      assert k !in Indices(pre);
      SetGet(p, k, f, k);
    }
  }

  /** One `add`: the slot of its index gains the fragment's piece; every
      other slot keeps its arguments. */
  lemma {:induction false} ArgumentsStep(p: Slots, f: ToolCallDelta, k: int)
    requires SlotsValid(p) && AddFragment(p, f).Success? && k in AddFragment(p, f).value.keys
    ensures OrEmpty(AddFragment(p, f).value.Get(k).value.arguments)
         == (if k in p.keys then OrEmpty(p.Get(k).value.arguments) else "")
            + (if f.index == k then OrEmpty(f.arguments) else "")
  {
    if f.index != k {
      AddFragmentOthers(p, f, k);
    } else if k in p.keys {
      SetGet(p, k, Extend(p.Get(k).value, f).value, k);
    } else {
      SetGet(p, k, f, k);
    }
  }

  /** The slot of index `k` ends with the argument pieces of its fragments
      concatenated in arrival order, after whatever it held before. */
  lemma {:induction false} AddAllArguments(slots: Slots, fs: seq<ToolCallDelta>, k: int)
    requires SlotsValid(slots) && AddAll(slots, fs).Success?
    requires k in AddAll(slots, fs).value.keys
    ensures OrEmpty(AddAll(slots, fs).value.Get(k).value.arguments)
         == (if k in slots.keys then OrEmpty(slots.Get(k).value.arguments) else "") + Concat(Pieces(fs, k))
    decreases |fs|
  {
    if fs != [] {
      var n := |fs|;
      var pre := fs[..n - 1];
      var p := AddAll(slots, pre).value;
      var f := fs[n - 1];
      var piece := if f.index == k then [OrEmpty(f.arguments)] else [];
      assert Pieces(fs, k) == Pieces(pre, k) + piece;
      ConcatAppend(Pieces(pre, k), piece);
      assert fs[..n - 1] == pre;
      assert AddAll(slots, fs) == AddFragment(p, f);
      ArgumentsStep(p, f, k);
      var base := if k in slots.keys then OrEmpty(slots.Get(k).value.arguments) else "";
      var before := if k in p.keys then OrEmpty(p.Get(k).value.arguments) else "";
      var extra := if f.index == k then OrEmpty(f.arguments) else "";
      assert Concat(piece) == extra;
      assert before == base + Concat(Pieces(pre, k)) by {
        AddAllKeys(slots, pre, k);
        if k in p.keys {
          AddAllArguments(slots, pre, k);
        } else {
          NoPieces(pre, k);
        }
      }
      AppendAssoc(base, Concat(Pieces(pre, k)), extra);
    } else {
      assert Pieces(fs, k) == [];
    }
  }

  /** An index that never arrived has no pieces. */
  lemma {:induction false} NoPieces(fs: seq<ToolCallDelta>, k: int)
    requires k !in Indices(fs)
    ensures Pieces(fs, k) == []
    decreases |fs|
  {
    if fs != [] {
      assert Indices(fs[..|fs| - 1]) == Indices(fs)[..|fs| - 1];
      NoPieces(fs[..|fs| - 1], k);
    }
  }

  /** `x + y` of two fragment lists, fed to `add` one after the other. */
  lemma {:induction false} AddAllConcat(slots: Slots, xs: seq<ToolCallDelta>, ys: seq<ToolCallDelta>)
    requires SlotsValid(slots)
    ensures AddAll(slots, xs + ys)
         == if AddAll(slots, xs).Failure? then AddAll(slots, xs) else AddAll(AddAll(slots, xs).value, ys)
    decreases |ys|
  {
    if ys == [] {
      assert xs + ys == xs;
    } else {
      assert (xs + ys)[..|xs + ys| - 1] == xs + ys[..|ys| - 1];
      AddAllConcat(slots, xs, ys[..|ys| - 1]);
    }
  }

  /** The first choice of a chunk, when it has one. */
  function FirstDelta(c: Chunk): Delta
  {
    if c.choices == [] then Delta(None, None) else c.choices[0]
  }

  /** Every tool-call fragment of the stream, in arrival order. */
  function AllFragments(chunks: seq<Chunk>): seq<ToolCallDelta>
  {
    if chunks == [] then []
    else AllFragments(chunks[..|chunks| - 1]) + FragmentsOf(FirstDelta(chunks[|chunks| - 1]))
  }

  /** Every text delta of the stream, in arrival order (`None` as ""). */
  function Texts(chunks: seq<Chunk>): seq<string>
  {
    if chunks == [] then []
    else Texts(chunks[..|chunks| - 1]) + [OrEmpty(FirstDelta(chunks[|chunks| - 1]).content)]
  }

  /** Once a chunk has failed, the failure is what `process_stream` raises. */
  lemma {:induction false} ConsumeFailed(chunks: seq<Chunk>, i: nat)
    requires i <= |chunks| && Consume(chunks[..i]).Failure?
    ensures Consume(chunks) == Consume(chunks[..i])
    decreases |chunks| - i
  {
    if i < |chunks| {
      ConsumeStep(chunks, i);
      ConsumeFailed(chunks, i + 1);
    } else {
      assert chunks[..i] == chunks;
    }
  }

  /** One more chunk runs one more step of the loop. */
  lemma {:induction false} ConsumeStep(chunks: seq<Chunk>, i: nat)
    requires i < |chunks|
    ensures var p := Consume(chunks[..i]);
            Consume(chunks[..i + 1]) == if p.Failure? then p else Step(p.value, chunks[i], i)
  {
    assert chunks[..i + 1][..i] == chunks[..i];
  }

  /** One chunk: it fails on a chunk without choices or on a failing `add`;
      otherwise it appends its text, adds its fragments and takes the first
      response time if none was taken yet. */
  lemma {:induction false} StepMeaning(st: StreamState, c: Chunk, i: nat)
    requires SlotsValid(st.slots)
    ensures Step(st, c, i).Success?
        <==> c.choices != [] && AddAll(st.slots, FragmentsOf(FirstDelta(c))).Success?
    ensures Step(st, c, i).Success? ==>
              Step(st, c, i).value
              == StreamState(st.content + OrEmpty(FirstDelta(c).content),
                             AddAll(st.slots, FragmentsOf(FirstDelta(c))).value,
                             if st.first.None? then Some(i) else st.first)
  {
    if c.choices != [] && FirstDelta(c).content.Some? && FirstDelta(c).content.value == "" {
      assert st.content + "" == st.content;
    }
  }

  predicate AllHaveChoices(chunks: seq<Chunk>)
  {
    forall i :: 0 <= i < |chunks| ==> chunks[i].choices != []
  }

  lemma {:induction false} AllHaveChoicesSnoc(chunks: seq<Chunk>)
    requires chunks != []
    ensures AllHaveChoices(chunks)
        <==> AllHaveChoices(chunks[..|chunks| - 1]) && chunks[|chunks| - 1].choices != []
  {
    assert forall i :: 0 <= i < |chunks| - 1 ==> chunks[..|chunks| - 1][i] == chunks[i];
  }

  /** The loop over a stream succeeds exactly when every chunk has a choice
      and every tool-call fragment can be added. */
  lemma {:induction false} ConsumeSucceeds(chunks: seq<Chunk>)
    ensures Consume(chunks).Success?
        <==> AllHaveChoices(chunks) && AddAll(Empty(), AllFragments(chunks)).Success?
    decreases |chunks|
  {
    if chunks != [] {
      var n := |chunks|;
      var pre := chunks[..n - 1];
      var c := chunks[n - 1];
      var frags := FragmentsOf(FirstDelta(c));
      ConsumeSucceeds(pre);
      AllHaveChoicesSnoc(chunks);
      assert AllFragments(chunks) == AllFragments(pre) + frags;
      AddAllConcat(Empty(), AllFragments(pre), frags);
      if Consume(pre).Success? {
        ConsumeValue(pre);
        StepMeaning(Consume(pre).value, c, n - 1);
        assert Consume(chunks) == Step(Consume(pre).value, c, n - 1);
      } else {
        assert Consume(chunks) == Consume(pre);
      }
    }
  }

  /** A successful loop holds the text deltas concatenated in arrival order,
      the slots of all fragments, and the position of the first chunk as the
      moment of the first response. */
  lemma {:induction false} ConsumeValue(chunks: seq<Chunk>)
    requires Consume(chunks).Success?
    ensures AddAll(Empty(), AllFragments(chunks)).Success?
    ensures Consume(chunks).value
         == StreamState(Concat(Texts(chunks)), AddAll(Empty(), AllFragments(chunks)).value,
                        if chunks == [] then None else Some(0))
    decreases |chunks|
  {
    if chunks != [] {
      var n := |chunks|;
      var pre := chunks[..n - 1];
      var c := chunks[n - 1];
      ConsumeValue(pre);
      AddAllConcat(Empty(), AllFragments(pre), FragmentsOf(FirstDelta(c)));
      ConcatAppend(Texts(pre), [OrEmpty(FirstDelta(c).content)]);
      StepMeaning(Consume(pre).value, c, n - 1);
    }
  }

  /** What `process_stream` returns, in terms of the stream alone: the
      stripped concatenation of the text deltas, one tool call per distinct
      fragment index in order of first arrival carrying the id and name of
      that index's first fragment and the concatenation of its argument
      pieces, and `first_response_time` taken at the first chunk only. */
  lemma {:induction false} ProcessStreamMeaning(chunks: seq<Chunk>)
    requires StreamResult(chunks).Success?
    ensures var (m, first) := StreamResult(chunks).value;
            var fs := AllFragments(chunks);
            var order := AppendNew([], Indices(fs));
            && first == (if chunks == [] then None else Some(0))
            && m.AssistantMessage? && m.content == Strip(Concat(Texts(chunks)))
            && m.toolCalls.Some? && |m.toolCalls.value| == |order|
            && forall i :: 0 <= i < |order| ==>
                 && FirstWith(fs, order[i]).Some?
                 && m.toolCalls.value[i].id == FirstWith(fs, order[i]).value.id
                 && m.toolCalls.value[i].name == FirstWith(fs, order[i]).value.name
                 && OrEmpty(m.toolCalls.value[i].arguments) == Concat(Pieces(fs, order[i]))
  {
    ConsumeValue(chunks);
    var fs := AllFragments(chunks);
    var slots := AddAll(Empty(), fs).value;
    AddAllKeyOrder(Empty(), fs);
    var order := AppendNew([], Indices(fs));
    forall i | 0 <= i < |order|
      ensures FirstWith(fs, order[i]).Some?
      ensures slots.Get(order[i]) == Some(slots.values[i])
      ensures slots.values[i].id == FirstWith(fs, order[i]).value.id
      ensures slots.values[i].name == FirstWith(fs, order[i]).value.name
      ensures OrEmpty(slots.values[i].arguments) == Concat(Pieces(fs, order[i]))
    {
      var k := order[i];
      AddAllKeys(Empty(), fs, k);
      assert k in Indices(fs);
      AddAllFirstFragment(Empty(), fs, k);
      AddAllArguments(Empty(), fs, k);
    }
  }

  /** The aggregator object of `process_stream`. */
  class StreamToolAggregator {
    var finalToolCalls: Slots

    ghost predicate Valid()
      reads this
    {
      SlotsValid(finalToolCalls)
    }

    constructor ()
      ensures Valid() && finalToolCalls == Empty()
    {
      finalToolCalls := Empty();
    }

    /** `add(tool_call)`: a failed `add` raises before it assigns anything. */
    method Add(toolCall: ToolCallDelta) returns (r: Result<(), Error>)
      requires Valid()
      modifies this
      ensures Valid()
      ensures r.Success? <==> AddFragment(old(finalToolCalls), toolCall).Success?
      ensures r.Success? ==> finalToolCalls == AddFragment(old(finalToolCalls), toolCall).value
      ensures r.Failure? ==> r.error == ConcatNone && finalToolCalls == old(finalToolCalls)
    {
      var index := toolCall.index;
      if index !in finalToolCalls.keys {
        SnocValid(finalToolCalls, toolCall);
        finalToolCalls := finalToolCalls.Set(index, toolCall);
      } else {
        var slot := finalToolCalls.Get(index).value;
        if toolCall.arguments.None? {
          return Failure(ConcatNone);
        }
        var extended := slot.(arguments := Some(OrEmpty(slot.arguments) + toolCall.arguments.value));
        ReplaceValid(finalToolCalls, index, extended);
        finalToolCalls := finalToolCalls.Set(index, extended);
      }
      r := Success(());
    }

    /** `aggregate()`: one tool call per slot, in the order of the slots' keys. */
    function Aggregate(): (r: seq<ToolCall>)
      reads this
      requires Valid()
      ensures |r| == |finalToolCalls.keys|
      ensures forall i :: 0 <= i < |r| ==>
                finalToolCalls.Get(finalToolCalls.keys[i]).Some?
                && r[i] == AsToolCall(finalToolCalls.Get(finalToolCalls.keys[i]).value)
                && finalToolCalls.Get(finalToolCalls.keys[i]).value.index == finalToolCalls.keys[i]
    {
      AsToolCalls(finalToolCalls.values)
    }
  }

  /** The `if delta.tool_calls: for tool_call in delta.tool_calls` part of
      the loop: `add` on each fragment in turn. */
  method AddFragments(aggregator: StreamToolAggregator, calls: seq<ToolCallDelta>) returns (r: Result<(), Error>)
    requires aggregator.Valid()
    modifies aggregator
    ensures aggregator.Valid()
    ensures r.Success? <==> AddAll(old(aggregator.finalToolCalls), calls).Success?
    ensures r.Failure? ==> AddAll(old(aggregator.finalToolCalls), calls) == Failure(r.error)
    ensures r.Success? ==> AddAll(old(aggregator.finalToolCalls), calls) == Success(aggregator.finalToolCalls)
  {
    ghost var before := aggregator.finalToolCalls;
    var j := 0;
    while j < |calls|
      invariant 0 <= j <= |calls| && aggregator.Valid()
      invariant AddAll(before, calls[..j]) == Success(aggregator.finalToolCalls)
    {
      assert calls[..j + 1][..j] == calls[..j];
      var added := aggregator.Add(calls[j]);
      if added.Failure? {
        AddAllFailed(before, calls, j + 1);
        return added;
      }
      j := j + 1;
    }
    assert calls[..j] == calls;
    r := Success(());
  }

  /** `process_stream(stream)`, without printing or display. */
  method ProcessStream(chunks: seq<Chunk>) returns (r: Result<(Message, Option<nat>), Error>)
    ensures r == StreamResult(chunks)
  {
    var messageContent := "";
    var first: Option<nat> := None;
    var aggregator := new StreamToolAggregator();
    var i := 0;
    while i < |chunks|
      invariant 0 <= i <= |chunks| && aggregator.Valid()
      invariant Consume(chunks[..i]) == Success(StreamState(messageContent, aggregator.finalToolCalls, first))
    {
      var chunk := chunks[i];
      ConsumeStep(chunks, i);
      if chunk.choices == [] {
        ConsumeFailed(chunks, i + 1);
        return Failure(NoChoices);
      }
      var delta := chunk.choices[0];
      ghost var st := StreamState(messageContent, aggregator.finalToolCalls, first);
      if first.None? {
        first := Some(i);
      }
      if delta.content.Some? && delta.content.value != "" {
        messageContent := messageContent + delta.content.value;
      }
      StepMeaning(st, chunk, i);
      if delta.toolCalls.Some? && delta.toolCalls.value != [] {
        var added := AddFragments(aggregator, delta.toolCalls.value);
        if added.Failure? {
          ConsumeFailed(chunks, i + 1);
          return Failure(added.error);
        }
      }
      i := i + 1;
    }
    assert chunks[..i] == chunks;
    r := Success((AssistantMessage(Strip(messageContent), Some(aggregator.Aggregate())), first));
  }
}
