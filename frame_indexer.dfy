/** The per-block indexer of pixelparty frame data: it selects the
    `load_frame_data` calls made to `pixelparty.near` in a block, decodes
    their arguments and submits one flat frame record per data item. */
module FrameIndexer {

  datatype Option<+T> = None | Some(value: T)

  type AccountId = string

  /** The contract whose calls are indexed. */
  const PixelTokenDb: string := "pixelparty.near"

  /** The only contract method whose calls are indexed. */
  const LoadFrameData: string := "load_frame_data"

  // ---------------------------------------------------------------------
  // Block data as the streaming runtime delivers it

  /** A FunctionCall operation; `args` is still the encoded string. */
  datatype FunctionCall = FunctionCall(methodName: string, args: string, gas: nat, deposit: string)

  /** An operation of an action; only the FunctionCall variant matters here. */
  datatype Operation =
    | FunctionCallOperation(functionCall: FunctionCall)
    | OtherOperation(kind: string)

  datatype Action = Action(receiverId: string, receiptId: string, signerId: AccountId, operations: seq<Operation>)

  datatype Block = Block(blockHeight: nat, timestampNanosec: nat, actions: seq<Action>)

  /** The decoded payload of a `load_frame_data` call: two arrays meant to run in parallel. */
  datatype FrameDataWrapper<D, M> = FrameDataWrapper(data: seq<D>, metadata: seq<M>)

  /** A selected call after decoding. `signerId` is `None` when the object carries no such property. */
  datatype DecodedCall<D, M> = DecodedCall(
    methodName: string,
    args: FrameDataWrapper<D, M>,
    gas: nat,
    deposit: string,
    receiptId: string,
    signerId: Option<AccountId>)

  /** A selected FunctionCall together with the action that carries it. */
  datatype Match = Match(action: Action, call: FunctionCall)

  /** The record written for one frame. `frameMetadata` is `None` where the
      metadata array has no element at the frame's index (JavaScript's `undefined`). */
  datatype Frame<D, M> = Frame(
    accountId: Option<AccountId>,
    blockHeight: nat,
    blockTimestamp: nat,
    frameData: D,
    frameMetadata: Option<M>,
    receiptId: string)

  /** The outcome of the promise the block handler returns. */
  datatype Outcome = Fulfilled | Rejected

  // ---------------------------------------------------------------------
  // Selector

  /** The projection `operation["FunctionCall"]`: defined only for the FunctionCall variant. */
  function FunctionCallOf(op: Operation): Option<FunctionCall>
  {
    match op
    case FunctionCallOperation(fc) => Some(fc)
    case OtherOperation(_) => None
  }

  /** The filter `operation?.methodName === "load_frame_data"` after the projection. */
  predicate IsFrameDataCall(op: Operation)
  {
    FunctionCallOf(op).Some? && FunctionCallOf(op).value.methodName == LoadFrameData
  }

  /** The `load_frame_data` calls among `ops`, in operation order, paired with `action`. */
  function ActionMatches(action: Action, ops: seq<Operation>): (r: seq<Match>)
    ensures |r| <= |ops|
    ensures forall k :: 0 <= k < |r| ==>
      r[k].action == action && r[k].call.methodName == LoadFrameData && FunctionCallOperation(r[k].call) in ops
  {
    if ops == [] then []
    else
      var rest := ActionMatches(action, ops[1..]);
      assert forall k :: 0 <= k < |rest| ==> FunctionCallOperation(rest[k].call) in ops by {
        forall k | 0 <= k < |rest| ensures FunctionCallOperation(rest[k].call) in ops {
          assert FunctionCallOperation(rest[k].call) in ops[1..];
        }
      }
      (if IsFrameDataCall(ops[0]) then [Match(action, ops[0].functionCall)] else []) + rest
  }

  /** The filter on the receiver followed by the flat map over each kept action's operations. */
  function Matches(actions: seq<Action>): (r: seq<Match>)
    ensures forall k :: 0 <= k < |r| ==>
      r[k].action in actions && r[k].action.receiverId == PixelTokenDb
      && r[k].call.methodName == LoadFrameData && FunctionCallOperation(r[k].call) in r[k].action.operations
  {
    if actions == [] then []
    else
      var rest := Matches(actions[1..]);
      assert forall k :: 0 <= k < |rest| ==> rest[k].action in actions by {
        forall k | 0 <= k < |rest| ensures rest[k].action in actions {
          assert rest[k].action in actions[1..];
        }
      }
      (if actions[0].receiverId == PixelTokenDb then ActionMatches(actions[0], actions[0].operations) else [])
      + rest
  }

  /** The object built for a selected call: the FunctionCall's own fields, the
      decoded `args` and the action's receipt id; the signer only if `carrySigner`. */
  function Attach<D, M>(m: Match, args: FrameDataWrapper<D, M>, carrySigner: bool): DecodedCall<D, M>
  {
    DecodedCall(m.call.methodName, args, m.call.gas, m.call.deposit, m.action.receiptId,
                if carrySigner then Some(m.action.signerId) else None)
  }

  /** `c` is the call built from `m`, its args obtained by decoding `m`'s encoded args. */
  ghost predicate DecodedFrom<D, M>(c: DecodedCall<D, M>, m: Match, decode: string -> Option<FrameDataWrapper<D, M>>, carrySigner: bool)
  {
    c.methodName == m.call.methodName && c.gas == m.call.gas && c.deposit == m.call.deposit
    && decode(m.call.args) == Some(c.args)
    && c.receiptId == m.action.receiptId
    && c.signerId == (if carrySigner then Some(m.action.signerId) else None)
  }

  /** Some selected call's payload fails to decode (`JSON.parse` throws). */
  predicate SomeUndecodable<D, M>(ms: seq<Match>, decode: string -> Option<FrameDataWrapper<D, M>>)
  {
    exists k :: 0 <= k < |ms| && decode(ms[k].call.args).None?
  }

  /** Decodes every selected call in order. One payload that fails to decode
      throws out of the whole selection, so the result is then `None`. */
  function DecodeAll<D, M>(ms: seq<Match>, decode: string -> Option<FrameDataWrapper<D, M>>, carrySigner: bool)
    : (r: Option<seq<DecodedCall<D, M>>>)
    ensures r.None? <==> SomeUndecodable(ms, decode)
    ensures r.Some? ==> |r.value| == |ms| && forall k :: 0 <= k < |ms| ==> DecodedFrom(r.value[k], ms[k], decode, carrySigner)
  {
    if ms == [] then Some([])
    else
      match decode(ms[0].call.args)
      case None => None
      case Some(args) =>
        var rest := DecodeAll(ms[1..], decode, carrySigner);
        assert rest.None? ==> SomeUndecodable(ms, decode) by {
          if rest.None? {
            var j :| 0 <= j < |ms[1..]| && decode(ms[1..][j].call.args).None?;
            assert decode(ms[j + 1].call.args).None?;
          }
        }
        match rest
        case None => None
        case Some(calls) => Some([Attach(ms[0], args, carrySigner)] + calls)
  }

  /** The selection of a block's calls, carrying each action's signer (the corrected form). */
  function Select<D, M>(actions: seq<Action>, decode: string -> Option<FrameDataWrapper<D, M>>)
    : (r: Option<seq<DecodedCall<D, M>>>)
    ensures r.None? <==> SomeUndecodable(Matches(actions), decode)
    ensures r.Some? ==> forall k :: 0 <= k < |r.value| ==>
      r.value[k].methodName == LoadFrameData
      && exists a :: a in actions && a.receiverId == PixelTokenDb
                    && r.value[k].receiptId == a.receiptId && r.value[k].signerId == Some(a.signerId)
  {
    var ms := Matches(actions);
    var calls := DecodeAll(ms, decode, true);
    assert calls.Some? ==> forall k :: 0 <= k < |calls.value| ==> ms[k].action in actions;
    calls
  }

  /** The selection as the handler writes it: the spread object has no `signerId`. */
  function SelectAsWritten<D, M>(actions: seq<Action>, decode: string -> Option<FrameDataWrapper<D, M>>)
    : (r: Option<seq<DecodedCall<D, M>>>)
    ensures r.None? <==> Select(actions, decode).None?
    ensures r.Some? ==>
      |r.value| == |Select(actions, decode).value|
      && forall k :: 0 <= k < |r.value| ==>
           r.value[k].signerId == None && r.value[k] == Select(actions, decode).value[k].(signerId := None)
  {
    DecodeAll(Matches(actions), decode, false)
  }

  lemma {:induction false} ActionMatchesAppend(action: Action, a: seq<Operation>, b: seq<Operation>)
    ensures ActionMatches(action, a + b) == ActionMatches(action, a) + ActionMatches(action, b)
  {
    if a == [] {
      assert a + b == b;
    } else {
      assert (a + b)[0] == a[0];
      assert (a + b)[1..] == a[1..] + b;
      ActionMatchesAppend(action, a[1..], b);
    }
  }

  lemma {:induction false} MatchesAppend(a: seq<Action>, b: seq<Action>)
    ensures Matches(a + b) == Matches(a) + Matches(b)
  {
    if a == [] {
      assert a + b == b;
    } else {
      assert (a + b)[0] == a[0];
      assert (a + b)[1..] == a[1..] + b;
      MatchesAppend(a[1..], b);
    }
  }

  /** An operation that is not a `load_frame_data` FunctionCall adds nothing, wherever it stands. */
  lemma OtherOperationIgnored(action: Action, pre: seq<Operation>, op: Operation, post: seq<Operation>)
    requires !IsFrameDataCall(op)
    ensures ActionMatches(action, pre + [op] + post) == ActionMatches(action, pre + post)
  {
    ActionMatchesAppend(action, pre + [op], post);
    ActionMatchesAppend(action, pre, [op]);
    ActionMatchesAppend(action, pre, post);
    assert ActionMatches(action, [op]) == [] by {
      assert [op][1..] == [];
    }
  }

  /** An action addressed to another receiver adds nothing, wherever it stands. */
  lemma OtherReceiverIgnored(pre: seq<Action>, a: Action, post: seq<Action>)
    requires a.receiverId != PixelTokenDb
    ensures Matches(pre + [a] + post) == Matches(pre + post)
  {
    MatchesAppend(pre + [a], post);
    MatchesAppend(pre, [a]);
    MatchesAppend(pre, post);
    assert Matches([a]) == [] by {
      assert [a][1..] == [];
    }
  }

  /** Every `load_frame_data` FunctionCall of an action is selected from it. */
  lemma {:induction false} ActionMatchesComplete(action: Action, ops: seq<Operation>, j: nat)
    requires j < |ops| && IsFrameDataCall(ops[j])
    ensures Match(action, ops[j].functionCall) in ActionMatches(action, ops)
  {
    if j > 0 {
      assert ops[1..][j - 1] == ops[j];
      ActionMatchesComplete(action, ops[1..], j - 1);
    }
  }

  /** Every `load_frame_data` FunctionCall of an action addressed to the contract is selected. */
  lemma {:induction false} MatchesComplete(actions: seq<Action>, i: nat, j: nat)
    requires i < |actions| && actions[i].receiverId == PixelTokenDb
    requires j < |actions[i].operations| && IsFrameDataCall(actions[i].operations[j])
    ensures Match(actions[i], actions[i].operations[j].functionCall) in Matches(actions)
  {
    if i == 0 {
      ActionMatchesComplete(actions[0], actions[0].operations, j);
    } else {
      assert actions[1..][i - 1] == actions[i];
      MatchesComplete(actions[1..], i - 1, j);
    }
  }

  /** A block with no action addressed to the contract selects nothing. */
  lemma {:induction false} NoTargetSelectsNothing<D, M>(actions: seq<Action>, decode: string -> Option<FrameDataWrapper<D, M>>)
    requires forall k :: 0 <= k < |actions| ==> actions[k].receiverId != PixelTokenDb
    ensures Matches(actions) == [] && Select(actions, decode) == Some([])
  {
    if actions != [] {
      NoTargetSelectsNothing(actions[1..], decode);
    }
  }

  // ---------------------------------------------------------------------
  // Expander

  /** The element read as `metadata[i]`: `None` past the end of the array. */
  function MetadataAt<M>(metadata: seq<M>, i: nat): Option<M>
  {
    if i < |metadata| then Some(metadata[i]) else None
  }

  /** The records submitted by the first `n` iterations of the expansion loop. */
  function Frames<D, M>(accountId: Option<AccountId>, blockHeight: nat, blockTimestamp: nat, receiptId: string,
                        w: FrameDataWrapper<D, M>, n: nat): (r: seq<Frame<D, M>>)
    requires n <= |w.data|
    ensures |r| == n
    ensures forall i :: 0 <= i < n ==>
      r[i] == Frame(accountId, blockHeight, blockTimestamp, w.data[i], MetadataAt(w.metadata, i), receiptId)
  {
    if n == 0 then []
    else
      Frames(accountId, blockHeight, blockTimestamp, receiptId, w, n - 1)
      + [Frame(accountId, blockHeight, blockTimestamp, w.data[n - 1], MetadataAt(w.metadata, n - 1), receiptId)]
  }

  /** All records expanded from one decoded call. */
  function CallFrames<D, M>(c: DecodedCall<D, M>, blockHeight: nat, blockTimestamp: nat): seq<Frame<D, M>>
  {
    Frames(c.signerId, blockHeight, blockTimestamp, c.receiptId, c.args, |c.args.data|)
  }

  /** Total number of data items over a sequence of calls. */
  function TotalData<D, M>(calls: seq<DecodedCall<D, M>>): nat
  {
    if calls == [] then 0 else TotalData(calls[..|calls| - 1]) + |calls[|calls| - 1].args.data|
  }

  /** The records of all calls, call after call. Every record carries the block
      values and the receipt id and signer of one of the calls. */
  function CallsFrames<D, M>(calls: seq<DecodedCall<D, M>>, blockHeight: nat, blockTimestamp: nat): (r: seq<Frame<D, M>>)
    ensures |r| == TotalData(calls)
    ensures forall i :: 0 <= i < |r| ==>
      r[i].blockHeight == blockHeight && r[i].blockTimestamp == blockTimestamp
      && exists k :: 0 <= k < |calls| && r[i].receiptId == calls[k].receiptId && r[i].accountId == calls[k].signerId
  {
    if calls == [] then []
    else
      var init := calls[..|calls| - 1];
      var front := CallsFrames(init, blockHeight, blockTimestamp);
      var last := CallFrames(calls[|calls| - 1], blockHeight, blockTimestamp);
      assert forall k :: 0 <= k < |init| ==> init[k] == calls[k];
      front + last
  }

  lemma CallsFramesSnoc<D, M>(calls: seq<DecodedCall<D, M>>, k: nat, blockHeight: nat, blockTimestamp: nat)
    requires k < |calls|
    ensures CallsFrames(calls[..k + 1], blockHeight, blockTimestamp)
            == CallsFrames(calls[..k], blockHeight, blockTimestamp) + CallFrames(calls[k], blockHeight, blockTimestamp)
  {
    assert calls[..k + 1][..k] == calls[..k];
  }

  /** The frames of a run of calls are those of its parts, one after the other. */
  lemma {:induction false} CallsFramesAppend<D, M>(a: seq<DecodedCall<D, M>>, b: seq<DecodedCall<D, M>>,
                                                   blockHeight: nat, blockTimestamp: nat)
    ensures CallsFrames(a + b, blockHeight, blockTimestamp)
            == CallsFrames(a, blockHeight, blockTimestamp) + CallsFrames(b, blockHeight, blockTimestamp)
  {
    if b == [] {
      assert a + b == a;
    } else {
      var n := |b| - 1;
      assert (a + b)[..|a + b| - 1] == a + b[..n];
      assert (a + b)[|a + b| - 1] == b[n];
      CallsFramesAppend(a, b[..n], blockHeight, blockTimestamp);
    }
  }

  /** What a block submits, using the corrected selection. Every record carries
      the block's height and timestamp and the receipt id and signer of one
      action addressed to the contract. */
  function BlockFrames<D, M>(block: Block, decode: string -> Option<FrameDataWrapper<D, M>>): (r: seq<Frame<D, M>>)
    ensures Select(block.actions, decode).None? ==> r == []
    ensures forall i :: 0 <= i < |r| ==>
      r[i].blockHeight == block.blockHeight && r[i].blockTimestamp == block.timestampNanosec
      && exists a :: a in block.actions && a.receiverId == PixelTokenDb
                    && r[i].receiptId == a.receiptId && r[i].accountId == Some(a.signerId)
  {
    match Select(block.actions, decode)
    case None => []
    case Some(calls) => CallsFrames(calls, block.blockHeight, block.timestampNanosec)
  }

  /** What a block submits with the selection as written: the intended
      records, in the intended order, each without its account id. */
  function BlockFramesAsWritten<D, M>(block: Block, decode: string -> Option<FrameDataWrapper<D, M>>): (r: seq<Frame<D, M>>)
    ensures |r| == |BlockFrames(block, decode)|
    ensures forall i :: 0 <= i < |r| ==> r[i] == BlockFrames(block, decode)[i].(accountId := None)
    ensures forall i :: 0 <= i < |r| ==> r[i].accountId == None
  {
    match SelectAsWritten(block.actions, decode)
    case None => []
    case Some(calls) =>
      var fixed := Select(block.actions, decode).value;
      CallsFramesDropSigner(calls, fixed, block.blockHeight, block.timestampNanosec);
      CallsFrames(calls, block.blockHeight, block.timestampNanosec)
  }

  /** A call without its signer expands to the same records without their account id. */
  lemma CallFramesDropSigner<D, M>(a: DecodedCall<D, M>, b: DecodedCall<D, M>, blockHeight: nat, blockTimestamp: nat)
    requires a == b.(signerId := None)
    ensures |CallFrames(a, blockHeight, blockTimestamp)| == |CallFrames(b, blockHeight, blockTimestamp)|
    ensures forall i :: 0 <= i < |CallFrames(a, blockHeight, blockTimestamp)| ==>
      CallFrames(a, blockHeight, blockTimestamp)[i] == CallFrames(b, blockHeight, blockTimestamp)[i].(accountId := None)
  {
  }

  /** Calls without their signers expand to the same records without their account ids. */
  lemma {:induction false} CallsFramesDropSigner<D, M>(a: seq<DecodedCall<D, M>>, b: seq<DecodedCall<D, M>>,
                                                       blockHeight: nat, blockTimestamp: nat)
    requires |a| == |b| && forall k :: 0 <= k < |a| ==> a[k] == b[k].(signerId := None)
    ensures |CallsFrames(a, blockHeight, blockTimestamp)| == |CallsFrames(b, blockHeight, blockTimestamp)|
    ensures forall i :: 0 <= i < |CallsFrames(a, blockHeight, blockTimestamp)| ==>
      CallsFrames(a, blockHeight, blockTimestamp)[i] == CallsFrames(b, blockHeight, blockTimestamp)[i].(accountId := None)
  {
    if a != [] {
      var n := |a| - 1;
      CallsFramesDropSigner(a[..n], b[..n], blockHeight, blockTimestamp);
      CallFramesDropSigner(a[n], b[n], blockHeight, blockTimestamp);
    }
  }

  /** A concrete block on which the handler as written submits a record with no
      account id, although the action that made the call has a signer. */
  lemma AsWrittenLosesSigner()
    ensures var block := Block(7, 1000, [Action(PixelTokenDb, "r1", "alice.near",
                                                [FunctionCallOperation(FunctionCall(LoadFrameData, "e30=", 0, "0"))])]);
            var decode := (s: string) => Some(FrameDataWrapper(["a"], [1]));
            BlockFramesAsWritten(block, decode) == [Frame(None, 7, 1000, "a", Some(1), "r1")]
            && BlockFrames(block, decode) == [Frame(Some("alice.near"), 7, 1000, "a", Some(1), "r1")]
  {
  }

  /** A block with no action addressed to the contract submits no record. */
  lemma NoTargetSubmitsNothing<D, M>(block: Block, decode: string -> Option<FrameDataWrapper<D, M>>)
    requires forall k :: 0 <= k < |block.actions| ==> block.actions[k].receiverId != PixelTokenDb
    ensures BlockFrames(block, decode) == []
  {
  }

  // ---------------------------------------------------------------------
  // Submission

  /** The GraphQL capability of the handler's context; a submission is recorded in `submitted`. */
  class GraphqlContext<D, M> {
    var submitted: seq<Frame<D, M>>

    constructor ()
      ensures submitted == []
    {
      submitted := [];
    }

    /** One `storeFrameData` mutation carrying `frame`. */
    method Graphql(frame: Frame<D, M>)
      modifies this
      ensures submitted == old(submitted) + [frame]
    {
      submitted := submitted + [frame];
    }
  }

  /** Submits one record per element of `frameDataWrapper.data`, in index order. */
  method HandleFrameDataRetrieval<D, M>(accountId: Option<AccountId>, blockHeight: nat, blockTimestamp: nat,
                                        receiptId: string, frameDataWrapper: FrameDataWrapper<D, M>,
                                        context: GraphqlContext<D, M>)
    modifies context
    ensures context.submitted
            == old(context.submitted) + Frames(accountId, blockHeight, blockTimestamp, receiptId,
                                               frameDataWrapper, |frameDataWrapper.data|)
  {
    var i := 0;
    while i < |frameDataWrapper.data|
      invariant 0 <= i <= |frameDataWrapper.data|
      invariant context.submitted
                == old(context.submitted) + Frames(accountId, blockHeight, blockTimestamp, receiptId, frameDataWrapper, i)
    {
      var frameData := frameDataWrapper.data[i];
      var frameMetadata := MetadataAt(frameDataWrapper.metadata, i);
      var frame := Frame(accountId, blockHeight, blockTimestamp, frameData, frameMetadata, receiptId);
      context.Graphql(frame);
      i := i + 1;
    }
  }

  /** The fan-out over the selected calls, run call after call: each call's
      frames are submitted in index order, and the calls in selection order. */
  method SubmitAll<D, M>(pixelTokenTxs: seq<DecodedCall<D, M>>, blockHeight: nat, blockTimestamp: nat,
                         context: GraphqlContext<D, M>)
    modifies context
    ensures context.submitted == old(context.submitted) + CallsFrames(pixelTokenTxs, blockHeight, blockTimestamp)
  {
    for k := 0 to |pixelTokenTxs|
      invariant context.submitted
                == old(context.submitted) + CallsFrames(pixelTokenTxs[..k], blockHeight, blockTimestamp)
    {
      var tx := pixelTokenTxs[k];
      HandleFrameDataRetrieval(tx.signerId, blockHeight, blockTimestamp, tx.receiptId, tx.args, context);
      CallsFramesSnoc(pixelTokenTxs, k, blockHeight, blockTimestamp);
    }
    assert pixelTokenTxs[..|pixelTokenTxs|] == pixelTokenTxs;
  }

  /** The block handler: selects the calls, and if there are any, expands and
      submits every call's frames. A payload that fails to decode rejects the
      handler before anything is submitted. */
  method GetBlock<D, M>(block: Block, decode: string -> Option<FrameDataWrapper<D, M>>, context: GraphqlContext<D, M>)
    returns (outcome: Outcome)
    modifies context
    ensures outcome == Rejected <==> Select(block.actions, decode).None?
    ensures context.submitted == old(context.submitted) + BlockFrames(block, decode)
  {
    var selected := Select(block.actions, decode);
    if selected.None? {
      return Rejected;
    }
    var pixelTokenTxs := selected.value;
    if |pixelTokenTxs| > 0 {
      SubmitAll(pixelTokenTxs, block.blockHeight, block.timestampNanosec, context);
    }
    outcome := Fulfilled;
  }
}
