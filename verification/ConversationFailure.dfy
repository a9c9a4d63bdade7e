/** Failures of a conversation: the current turn of a message graph and the merge of its failures. */
module ConversationFailure {
  import opened Sequences
  import opened ImageFailure

  // ---- Messages ----

  datatype Role = User | Assistant | Tool | OtherRole
  datatype ContentType = PlainText | SystemError | OtherContent

  /** A message may be wrapped in an event; these are the events that report a failed response. */
  datatype EventType = OtherEvent | ResponseFailed | ResponseIncomplete

  /** What classification reads from a message. `status` is its status as a word; whether that status is
      terminal or a failed one is read off beside it. The last four fields belong to the event around it:
      its type, the whole of it as a value and as raw text, and the error text that may be shown. */
  datatype Message = Message(role: Role, contentType: ContentType, status: Word, terminal: bool, failedStatus: bool,
                             endTurn: bool, isError: bool, blocked: bool, imageOutput: bool, hasText: bool,
                             body: Json, raw: string,
                             event: EventType, outer: Json, outerRaw: string, outerError: string)

  /** The event branch of `classify_upstream_message`. */
  ghost function ClassifyEvent(m: Message): Failure {
    var structured := ClassifyCodes(Words(m.outer), None, m.outerRaw);
    var failure := if structured.Some? then structured.value else FailureOf(ToolError, None, m.outerRaw);
    if m.event == ResponseFailed then failure.(public := m.outerError) else failure
  }

  /** `classify_upstream_message`: an event of a failed response, or `classify_message_facts` on the facts of
      one message. */
  ghost function ClassifyMessage(m: Message): Option<Failure> {
    var structured := ClassifyCodes(Words(m.body) + {m.status}, None, m.raw);
    if m.event != OtherEvent then Some(ClassifyEvent(m))
    else if m.imageOutput then None
    else if m.blocked then Some(FailureOf(ContentPolicyViolation, None, m.raw))
    else if structured.Some? then structured
    else if m.role == Assistant && m.contentType == PlainText && (m.endTurn || m.terminal) && m.hasText then
      Some(FailureOf(UpstreamTextReply, None, m.raw).(public := m.raw))
    else if m.role == Tool && m.contentType == SystemError then Some(FailureOf(ToolError, None, m.raw))
    else if m.isError || m.failedStatus then
      Some(FailureOf(if IsLimitWord(m.status) then UpstreamRateLimited else UpstreamError, None, m.raw))
    else None
  }

  /** The last branch never reports a rate limit: a limit word as status is a known code before. */
  lemma LimitStatusIsClassifiedEarlier(m: Message)
    requires m.event == OtherEvent && !m.imageOutput && !m.blocked && IsLimitWord(m.status)
    ensures ClassifyCodes(Words(m.body) + {m.status}, None, m.raw).Some?
    ensures ClassifyMessage(m) == ClassifyCodes(Words(m.body) + {m.status}, None, m.raw)
  {
    ClassifiedCodes(Words(m.body) + {m.status}, None, m.raw);
    assert m.status in Words(m.body) + {m.status} && !m.status.Unknown?;
  }

  // ---- What a message says, in its own terms ----

  /** A blocked message without image output, outside the events of a failed response. */
  predicate IsBlocked(m: Message) {
    m.event == OtherEvent && !m.imageOutput && m.blocked
  }

  /** A finished text of the assistant. */
  predicate IsFinalText(m: Message) {
    && m.event == OtherEvent && !m.imageOutput
    && m.role == Assistant && m.contentType == PlainText && m.hasText && (m.endTurn || m.terminal)
  }

  /** An event of a failed response, or a system error that a tool reports. */
  predicate IsToolFailure(m: Message) {
    m.event != OtherEvent || (!m.imageOutput && m.role == Tool && m.contentType == SystemError)
  }

  /** A message marked as failed. */
  predicate IsMarkedFailed(m: Message) {
    m.event == OtherEvent && !m.imageOutput && (m.isError || m.failedStatus)
  }

  /** The words that a message carries under code keys, and its status; for an event those of the event. */
  ghost function WordsOf(m: Message): set<Word> {
    if m.event != OtherEvent then Words(m.outer) else Words(m.body) + {m.status}
  }

  /** The message names a known code, alias or limit word, and neither shows an image nor is blocked. */
  ghost predicate IsCoded(m: Message) {
    && (m.event == OtherEvent ==> !m.imageOutput && !m.blocked)
    && exists w :: w in WordsOf(m) && !w.Unknown?
  }

  /** When a message classifies at all, and as what. A block outranks the codes that its own message names;
      codes outrank everything else; then come the tool and the failed response, the final text, the mark. */
  lemma MessageClassifies(m: Message)
    ensures ClassifyMessage(m).Some? <==> IsBlocked(m) || IsCoded(m) || IsToolFailure(m) || IsFinalText(m) || IsMarkedFailed(m)
    ensures IsBlocked(m) ==> ClassifyMessage(m).value.code == ContentPolicyViolation
    ensures IsCoded(m) ==> WordsOf(m) * AUTH != {} ==> ClassifyMessage(m).value.code == AuthInvalid
    ensures !IsBlocked(m) && !IsCoded(m) ==>
              && (IsToolFailure(m) ==> ClassifyMessage(m).value.code == ToolError)
              && (!IsToolFailure(m) && IsFinalText(m) ==> ClassifyMessage(m).value.code == UpstreamTextReply)
              && (!IsToolFailure(m) && !IsFinalText(m) && IsMarkedFailed(m) ==> ClassifyMessage(m).value.code == UpstreamError)
  {
    ClassifiedCodes(WordsOf(m), None, if m.event != OtherEvent then m.outerRaw else m.raw);
    if m.event == OtherEvent && IsLimitWord(m.status) {
      assert m.status in WordsOf(m) && !m.status.Unknown?;
    }
  }

  /** A message that names codes is classified by the highest of them. */
  lemma CodedMessageIs(m: Message)
    requires IsCoded(m) && RankedCode(WordsOf(m)).Some?
    ensures ClassifyMessage(m).Some? && ClassifyMessage(m).value.code == RankedCode(WordsOf(m)).value
  {
    KnownCodesExact(WordsOf(m));
    StructuredCodeIs(WordsOf(m));
  }

  /** Every classified failure carries the raw text it was read from, no advice when to retry, the policy of its
      code, and for the caller the text of the reply or the error of the failed response. */
  lemma MessageDetail(m: Message)
    requires ClassifyMessage(m).Some?
    ensures var f := ClassifyMessage(m).value;
            && f.policy == PolicyOf(f.code) && f.retryAfter.None?
            && f.raw == (if m.event != OtherEvent then m.outerRaw else m.raw)
            && (m.event == ResponseFailed ==> f.public == m.outerError)
            && (m.event == ResponseIncomplete ==> f.public == "")
            && (m.event == OtherEvent ==> f.public == if IsFinalText(m) && !IsBlocked(m) && !IsCoded(m) then m.raw else "")
  {
    ClassifiedCodes(WordsOf(m), None, if m.event != OtherEvent then m.outerRaw else m.raw);
  }

  // ---- Merging ----

  /** `merge_message_failure`. */
  function Merge(current: Option<Failure>, candidate: Option<Failure>): Option<Failure> {
    if candidate.None? then current
    else if current.None? then candidate
    else
      var wins := candidate.value.code == current.value.code || Priority(candidate.value.code) > Priority(current.value.code);
      var winner, other := if wins then candidate.value else current.value, if wins then current.value else candidate.value;
      Some(winner.(raw := if winner.raw == "" then other.raw else winner.raw,
                   public := if winner.public == "" then other.public else winner.public))
  }

  function MergeAll(failures: seq<Option<Failure>>): Option<Failure> {
    if failures == [] then None else Merge(MergeAll(failures[..|failures| - 1]), failures[|failures| - 1])
  }

  /** The first failure of the highest priority. */
  ghost predicate IsLeading(failures: seq<Option<Failure>>, k: int) {
    && 0 <= k < |failures| && failures[k].Some?
    && (forall i :: 0 <= i < |failures| && failures[i].Some? ==> Priority(failures[i].value.code) <= Priority(failures[k].value.code))
    && (forall i :: 0 <= i < k && failures[i].Some? ==> Priority(failures[i].value.code) < Priority(failures[k].value.code))
  }

  /** The last failure with the given code. */
  ghost predicate IsLatest(failures: seq<Option<Failure>>, code: Code, k: int) {
    && 0 <= k < |failures| && failures[k].Some? && failures[k].value.code == code
    && (forall i :: k < i < |failures| && failures[i].Some? ==> failures[i].value.code != code)
  }

  predicate Takes(current: Option<Failure>, candidate: Option<Failure>) {
    candidate.Some? && (current.None? || Priority(candidate.value.code) > Priority(current.value.code))
  }

  lemma MergeCode(current: Option<Failure>, candidate: Option<Failure>)
    ensures Merge(current, candidate).None? <==> current.None? && candidate.None?
    ensures Merge(current, candidate).Some? ==>
              Merge(current, candidate).value.code == if Takes(current, candidate) then candidate.value.code else current.value.code
  {
  }

  lemma LeadingStep(failures: seq<Option<Failure>>, k: int)
    requires failures != [] && IsLeading(failures[..|failures| - 1], k)
    ensures IsLeading(failures, if Takes(failures[k], failures[|failures| - 1]) then |failures| - 1 else k)
  {
    var n := |failures| - 1;
    forall i | 0 <= i < n ensures failures[i] == failures[..n][i] {
    }
  }

  lemma {:induction false} MergedCode(failures: seq<Option<Failure>>)
    ensures MergeAll(failures).None? <==> forall i :: 0 <= i < |failures| ==> failures[i].None?
    ensures MergeAll(failures).Some? ==> exists k :: IsLeading(failures, k) && failures[k].value.code == MergeAll(failures).value.code
  {
    if failures != [] {
      var n := |failures| - 1;
      var init := failures[..n];
      MergedCode(init);
      MergeCode(MergeAll(init), failures[n]);
      if MergeAll(init).Some? {
        var k :| IsLeading(init, k) && init[k].value.code == MergeAll(init).value.code;
        LeadingStep(failures, k);
      } else if failures[n].Some? {
        assert forall i :: 0 <= i < n ==> failures[i] == init[i];
        assert IsLeading(failures, n);
      }
    }
  }

  /** Detail is never lost and never invented. */
  lemma {:induction false} MergedDetail(failures: seq<Option<Failure>>)
    ensures MergeAll(failures).Some? ==>
              (MergeAll(failures).value.raw != "" <==> exists i :: 0 <= i < |failures| && failures[i].Some? && failures[i].value.raw != "")
    ensures MergeAll(failures).Some? ==>
              (MergeAll(failures).value.public != "" <==> exists i :: 0 <= i < |failures| && failures[i].Some? && failures[i].value.public != "")
  {
    if failures != [] {
      var n := |failures| - 1;
      var init := failures[..n];
      MergedCode(init);
      MergedDetail(init);
      assert forall i :: 0 <= i < n ==> failures[i] == init[i];
    }
  }

  /** Apart from borrowed details the result is the last failure of its code, and its raw detail is that
      failure's own if it has one. */
  lemma {:induction false} MergedIsLatest(failures: seq<Option<Failure>>) returns (k: int)
    requires MergeAll(failures).Some?
    ensures IsLatest(failures, MergeAll(failures).value.code, k)
    ensures MergeAll(failures).value.(raw := "", public := "") == failures[k].value.(raw := "", public := "")
    ensures failures[k].value.raw != "" ==> MergeAll(failures).value.raw == failures[k].value.raw
    ensures failures[k].value.public != "" ==> MergeAll(failures).value.public == failures[k].value.public
  {
    var n := |failures| - 1;
    var init, last := failures[..n], failures[n];
    var so := MergeAll(init);
    if last.None? || (so.Some? && last.value.code != so.value.code && Priority(last.value.code) <= Priority(so.value.code)) {
      k := MergedIsLatest(init);
    } else {
      k := n;
    }
  }

  // ---- The current turn ----

  /** A node of the message graph; a node that is not a mapping is absent. */
  datatype Node = Node(message: Option<Message>, parent: string)

  /** A conversation: its graph, the node it stands at, and its messages by creation time. */
  datatype Conversation = Conversation(nodes: map<string, Option<Node>>, current: string, timeline: seq<Message>)

  predicate IsNode(nodes: map<string, Option<Node>>, id: string) {
    id in nodes && nodes[id].Some?
  }

  ghost predicate IsChain(nodes: map<string, Option<Node>>, ids: seq<string>) {
    && (forall i :: 0 <= i < |ids| ==> ids[i] != "" && IsNode(nodes, ids[i]))
    && (forall i :: 0 <= i < |ids| - 1 ==> nodes[ids[i]].value.parent == ids[i + 1])
  }

  /** A walk along the parents, from `start`; `next` is where it goes on. */
  ghost predicate IsWalk(nodes: map<string, Option<Node>>, start: string, ids: seq<string>, next: string) {
    && IsChain(nodes, ids)
    && NoDuplicates(ids)
    && next == (if ids == [] then start else nodes[ids[|ids| - 1]].value.parent)
    && (ids != [] ==> ids[0] == start)
  }

  /** The walk has come to the root, to a node that is not there, or back to a node it has seen. */
  ghost predicate WalkEnds(nodes: map<string, Option<Node>>, ids: seq<string>, next: string) {
    next == "" || !IsNode(nodes, next) || next in ids
  }

  lemma {:induction false} CommonPrefix(nodes: map<string, Option<Node>>, start: string, a: seq<string>, x: string,
          b: seq<string>, y: string, n: nat)
    requires IsWalk(nodes, start, a, x) && IsWalk(nodes, start, b, y) && n <= |a| && n <= |b|
    ensures a[..n] == b[..n]
  {
    if n > 0 {
      CommonPrefix(nodes, start, a, x, b, y, n - 1);
      assert a[n - 1] == b[n - 1] by {
        if n > 1 {
          assert a[n - 2] == a[..n - 1][n - 2] == b[..n - 1][n - 2];
        }
      }
      assert a[..n] == a[..n - 1] + [a[n - 1]] && b[..n] == b[..n - 1] + [b[n - 1]];
    }
  }

  /** Beyond the end of a finished walk there are only nodes it has seen. */
  lemma LongerWalkRepeats(nodes: map<string, Option<Node>>, start: string, a: seq<string>, x: string, b: seq<string>)
    requires IsWalk(nodes, start, a, x) && WalkEnds(nodes, a, x)
    requires |a| < |b| && a == b[..|a|] && b[0] == start && IsChain(nodes, b)
    ensures !NoDuplicates(b)
  {
    assert b[|a|] == x by {
      if a != [] {
        assert a[|a| - 1] == b[|a| - 1];
      }
    }
    var i :| 0 <= i < |a| && a[i] == x;
    assert b[i] == b[|a|];
  }

  lemma WalkIsUnique(nodes: map<string, Option<Node>>, start: string, a: seq<string>, x: string, b: seq<string>, y: string)
    requires IsWalk(nodes, start, a, x) && WalkEnds(nodes, a, x)
    requires IsWalk(nodes, start, b, y) && WalkEnds(nodes, b, y)
    ensures a == b
  {
    CommonPrefix(nodes, start, a, x, b, y, Min(|a|, |b|));
    if |a| < |b| {
      LongerWalkRepeats(nodes, start, a, x, b);
      assert false;
    } else if |b| < |a| {
      LongerWalkRepeats(nodes, start, b, y, a);
      assert false;
    }
  }

  /** The messages of a walk, in walking order. */
  function MessagesOf(nodes: map<string, Option<Node>>, ids: seq<string>): seq<Message> {
    if ids == [] then []
    else
      var id := ids[|ids| - 1];
      MessagesOf(nodes, ids[..|ids| - 1]) +
      if IsNode(nodes, id) && nodes[id].value.message.Some? then [nodes[id].value.message.value] else []
  }

  predicate IsUser(m: Message) {
    m.role == User
  }

  /** `turn` is what follows the last user message. */
  ghost predicate IsTurn(messages: seq<Message>, turn: seq<Message>) {
    && |turn| <= |messages| && messages[|messages| - |turn|..] == turn
    && (forall m :: m in turn ==> !IsUser(m))
    && (|turn| < |messages| ==> IsUser(messages[|messages| - |turn| - 1]))
  }

  lemma LongerEndHasUser(messages: seq<Message>, turn: seq<Message>, more: seq<Message>)
    requires IsTurn(messages, turn)
    requires |turn| < |more| <= |messages| && messages[|messages| - |more|..] == more
    ensures exists m :: m in more && IsUser(m)
  {
    var m := more[|more| - |turn| - 1];
    assert m == messages[|messages| - |turn| - 1] && m in more;
  }

  lemma TurnIsUnique(messages: seq<Message>, a: seq<Message>, b: seq<Message>)
    requires IsTurn(messages, a) && IsTurn(messages, b)
    ensures a == b
  {
    if |a| < |b| {
      LongerEndHasUser(messages, a, b);
      assert false;
    } else if |b| < |a| {
      LongerEndHasUser(messages, b, a);
      assert false;
    }
  }

  /** The messages of the finished walk from `start`, in walking order. */
  ghost predicate IsLineage(nodes: map<string, Option<Node>>, start: string, lineage: seq<Message>) {
    exists ids, next :: IsWalk(nodes, start, ids, next) && WalkEnds(nodes, ids, next) && lineage == MessagesOf(nodes, ids)
  }

  lemma LineageIsUnique(nodes: map<string, Option<Node>>, start: string, a: seq<Message>, b: seq<Message>)
    requires IsLineage(nodes, start, a) && IsLineage(nodes, start, b)
    ensures a == b
  {
    var i, x :| IsWalk(nodes, start, i, x) && WalkEnds(nodes, i, x) && a == MessagesOf(nodes, i);
    var j, y :| IsWalk(nodes, start, j, y) && WalkEnds(nodes, j, y) && b == MessagesOf(nodes, j);
    WalkIsUnique(nodes, start, i, x, j, y);
  }

  /** One more node of a walk that has not ended. */
  lemma WalkGoesOn(nodes: map<string, Option<Node>>, start: string, ids: seq<string>, next: string)
    requires IsWalk(nodes, start, ids, next) && !WalkEnds(nodes, ids, next)
    ensures IsWalk(nodes, start, ids + [next], nodes[next].value.parent)
    ensures MessagesOf(nodes, ids + [next]) ==
            MessagesOf(nodes, ids) + if nodes[next].value.message.Some? then [nodes[next].value.message.value] else []
    ensures forall id :: id in ids + [next] <==> id in ids || id == next
  {
    assert (ids + [next])[..|ids|] == ids;
  }

  /** The loop up the parents: it ends on every graph, cyclic or not. */
  method WalkUp(nodes: map<string, Option<Node>>, start: string) returns (lineage: seq<Message>)
    ensures IsLineage(nodes, start, lineage)
  {
    lineage := [];
    ghost var ids: seq<string> := [];
    var visited: set<string> := {};
    var nodeId := start;
    while nodeId != "" && nodeId !in visited
      invariant visited <= nodes.Keys && forall id :: id in visited <==> id in ids
      invariant IsWalk(nodes, start, ids, nodeId)
      invariant lineage == MessagesOf(nodes, ids)
      decreases nodes.Keys - visited
    {
      if !IsNode(nodes, nodeId) {
        break;
      }
      var node := nodes[nodeId].value;
      WalkGoesOn(nodes, start, ids, nodeId);
      visited, ids := visited + {nodeId}, ids + [nodeId];
      if node.message.Some? {
        lineage := lineage + [node.message.value];
      }
      nodeId := node.parent;
    }
    assert WalkEnds(nodes, ids, nodeId);
  }

  /** The messages that lead to the current node, oldest first, or all of them by time. */
  ghost predicate IsThread(conv: Conversation, messages: seq<Message>) {
    if conv.current != "" && conv.current in conv.nodes then
      exists lineage :: IsLineage(conv.nodes, conv.current, lineage) && messages == Reverse(lineage)
    else messages == conv.timeline
  }

  ghost predicate IsCurrentTurn(conv: Conversation, turn: seq<Message>) {
    exists messages :: IsThread(conv, messages) && IsTurn(messages, turn)
  }

  /** `_current_conversation_turn`. */
  method CurrentTurn(conv: Conversation) returns (turn: seq<Message>)
    ensures IsCurrentTurn(conv, turn)
  {
    var thread;
    if conv.current != "" && conv.current in conv.nodes {
      var lineage := WalkUp(conv.nodes, conv.current);
      thread := Reverse(lineage);
    } else {
      thread := conv.timeline;
    }
    var lastUser := -1;
    for i := 0 to |thread|
      invariant -1 <= lastUser < i
      invariant lastUser >= 0 ==> IsUser(thread[lastUser])
      invariant forall j :: lastUser < j < i ==> !IsUser(thread[j])
    {
      if IsUser(thread[i]) {
        lastUser := i;
      }
    }
    turn := thread[lastUser + 1..];
    assert IsThread(conv, thread) && IsTurn(thread, turn);
  }

  /** Every conversation has one current turn, and it contains no user message. */
  lemma CurrentTurnIsUnique(conv: Conversation, a: seq<Message>, b: seq<Message>)
    requires IsCurrentTurn(conv, a) && IsCurrentTurn(conv, b)
    ensures a == b && forall m :: m in a ==> !IsUser(m)
  {
    var x :| IsThread(conv, x) && IsTurn(x, a);
    var y :| IsThread(conv, y) && IsTurn(y, b);
    if conv.current != "" && conv.current in conv.nodes {
      var p :| IsLineage(conv.nodes, conv.current, p) && x == Reverse(p);
      var q :| IsLineage(conv.nodes, conv.current, q) && y == Reverse(q);
      LineageIsUnique(conv.nodes, conv.current, p, q);
    }
    TurnIsUnique(x, a, b);
  }

  // ---- The failure of a conversation ----

  method ClassifyResponse(m: Message) returns (failure: Failure)
    ensures failure == ClassifyEvent(m)
  {
    var words := StructuredCodes(m.outer);
    var structured := ClassifyStructured(words, None, m.outerRaw);
    failure := if structured.Some? then structured.value else FailureOf(ToolError, None, m.outerRaw);
    if m.event == ResponseFailed {
      failure := failure.(public := m.outerError);
    }
  }

  method ClassifyOne(m: Message) returns (failure: Option<Failure>)
    ensures failure == ClassifyMessage(m)
  {
    if m.event != OtherEvent {
      var event := ClassifyResponse(m);
      return Some(event);
    }
    var words := StructuredCodes(m.body);
    var structured := ClassifyStructured(words + {m.status}, None, m.raw);
    if m.imageOutput {
      failure := None;
    } else if m.blocked {
      failure := Some(FailureOf(ContentPolicyViolation, None, m.raw));
    } else if structured.Some? {
      failure := structured;
    } else if m.role == Assistant && m.contentType == PlainText && (m.endTurn || m.terminal) && m.hasText {
      failure := Some(FailureOf(UpstreamTextReply, None, m.raw).(public := m.raw));
    } else if m.role == Tool && m.contentType == SystemError {
      failure := Some(FailureOf(ToolError, None, m.raw));
    } else if m.isError || m.failedStatus {
      failure := Some(FailureOf(if IsLimitWord(m.status) then UpstreamRateLimited else UpstreamError, None, m.raw));
    } else {
      failure := None;
    }
  }

  ghost function Classified(turn: seq<Message>): (r: seq<Option<Failure>>)
    ensures |r| == |turn| && forall i :: 0 <= i < |r| ==> r[i] == ClassifyMessage(turn[i])
  {
    seq(|turn|, i requires 0 <= i < |turn| => ClassifyMessage(turn[i]))
  }

  ghost predicate GivesCode(m: Message, code: Code) {
    ClassifyMessage(m).Some? && ClassifyMessage(m).value.code == code
  }

  ghost predicate Classifies(m: Message) {
    IsBlocked(m) || IsCoded(m) || IsToolFailure(m) || IsFinalText(m) || IsMarkedFailed(m)
  }

  /** The code of a turn none of whose messages names a known code: a block comes first, then a tool error or a
      failed response, then a final text; otherwise some message is only marked as failed. */
  ghost function UncodedCode(turn: seq<Message>): Code {
    if exists m :: m in turn && IsBlocked(m) then ContentPolicyViolation
    else if exists m :: m in turn && IsToolFailure(m) then ToolError
    else if exists m :: m in turn && IsFinalText(m) then UpstreamTextReply
    else UpstreamError
  }

  /** What the messages of a turn say about its failure: none if and only if the turn has image output or no
      message of it classifies; an invalid credential named by a message decides; without known codes the
      messages decide by their kind; a block is reported as such unless some message names a code. */
  ghost predicate TurnSays(turn: seq<Message>, failure: Option<Failure>) {
    && (failure.None? <==> (exists m :: m in turn && m.imageOutput) || (forall m :: m in turn ==> !Classifies(m)))
    && (failure.Some? ==>
          && failure.value.policy == PolicyOf(failure.value.code) && failure.value.retryAfter.None?
          && ((exists m :: m in turn && IsCoded(m) && WordsOf(m) * AUTH != {}) ==> failure.value.code == AuthInvalid)
          && ((forall m :: m in turn ==> !IsCoded(m)) ==> failure.value.code == UncodedCode(turn))
          && ((exists m :: m in turn && IsBlocked(m)) ==>
                failure.value.code == ContentPolicyViolation ||
                exists m :: m in turn && IsCoded(m) && GivesCode(m, failure.value.code)))
  }

  ghost predicate IsLeadingCode(turn: seq<Message>, code: Code) {
    && (exists m :: m in turn && GivesCode(m, code))
    && (forall m :: m in turn && ClassifyMessage(m).Some? ==> Priority(ClassifyMessage(m).value.code) <= Priority(code))
  }

  lemma LeadingIsLeadingCode(turn: seq<Message>, k: int)
    requires IsLeading(Classified(turn), k)
    ensures IsLeadingCode(turn, Classified(turn)[k].value.code)
  {
    assert turn[k] in turn;
    forall m | m in turn && ClassifyMessage(m).Some?
      ensures Priority(ClassifyMessage(m).value.code) <= Priority(Classified(turn)[k].value.code)
    {
      var i :| 0 <= i < |turn| && turn[i] == m;
      assert Classified(turn)[i] == ClassifyMessage(m);
    }
  }

  lemma AuthGives(m: Message)
    requires IsCoded(m) && WordsOf(m) * AUTH != {}
    ensures GivesCode(m, AuthInvalid)
  {
    MessageClassifies(m);
  }

  lemma AuthIsHighest(code: Code)
    requires Priority(code) >= Priority(AuthInvalid)
    ensures code == AuthInvalid
  {
  }

  lemma AuthLeads(turn: seq<Message>, code: Code, m: Message)
    requires IsLeadingCode(turn, code) && m in turn && IsCoded(m) && WordsOf(m) * AUTH != {}
    ensures code == AuthInvalid
  {
    AuthGives(m);
    AuthIsHighest(code);
  }

  /** How high the code of a message without known codes can be. */
  lemma UncodedPriority(m: Message)
    requires !IsCoded(m) && ClassifyMessage(m).Some?
    ensures Priority(ClassifyMessage(m).value.code) ==
            if IsBlocked(m) then 4 else if IsToolFailure(m) then 3 else if IsFinalText(m) then 2 else 0
    ensures ClassifyMessage(m).value.code ==
            if IsBlocked(m) then ContentPolicyViolation else if IsToolFailure(m) then ToolError
            else if IsFinalText(m) then UpstreamTextReply else UpstreamError
  {
    MessageClassifies(m);
  }

  lemma LeadsOver(turn: seq<Message>, code: Code, lead: Message, m: Message)
    requires IsLeadingCode(turn, code) && lead in turn && GivesCode(lead, code) && !IsCoded(lead)
    requires m in turn && !IsCoded(m)
    ensures IsBlocked(m) ==> IsBlocked(lead)
    ensures IsToolFailure(m) ==> IsBlocked(lead) || IsToolFailure(lead)
    ensures IsFinalText(m) ==> IsBlocked(lead) || IsToolFailure(lead) || IsFinalText(lead)
  {
    MessageClassifies(m);
    UncodedPriority(lead);
    if ClassifyMessage(m).Some? {
      UncodedPriority(m);
    }
  }

  lemma UncodedLeads(turn: seq<Message>, code: Code)
    requires IsLeadingCode(turn, code) && forall m :: m in turn ==> !IsCoded(m)
    ensures code == UncodedCode(turn)
  {
    var lead :| lead in turn && GivesCode(lead, code);
    UncodedPriority(lead);
    forall m | m in turn
      ensures IsBlocked(m) ==> IsBlocked(lead)
      ensures IsToolFailure(m) ==> IsBlocked(lead) || IsToolFailure(lead)
      ensures IsFinalText(m) ==> IsBlocked(lead) || IsToolFailure(lead) || IsFinalText(lead)
    {
      LeadsOver(turn, code, lead, m);
    }
  }

  lemma BlockGives(m: Message)
    requires IsBlocked(m)
    ensures GivesCode(m, ContentPolicyViolation)
  {
    MessageClassifies(m);
  }

  lemma UncodedGivesAtMost(m: Message, code: Code)
    requires !IsCoded(m) && GivesCode(m, code) && Priority(code) >= Priority(ContentPolicyViolation)
    ensures code == ContentPolicyViolation
  {
    UncodedPriority(m);
  }

  lemma BlockLeads(turn: seq<Message>, code: Code, blocked: Message)
    requires IsLeadingCode(turn, code) && blocked in turn && IsBlocked(blocked)
    ensures code == ContentPolicyViolation || exists m :: m in turn && IsCoded(m) && GivesCode(m, code)
  {
    BlockGives(blocked);
    var lead :| lead in turn && GivesCode(lead, code);
    if !IsCoded(lead) {
      UncodedGivesAtMost(lead, code);
    }
  }

  lemma LeadingSays(turn: seq<Message>, code: Code)
    requires IsLeadingCode(turn, code)
    ensures (exists m :: m in turn && IsCoded(m) && WordsOf(m) * AUTH != {}) ==> code == AuthInvalid
    ensures (forall m :: m in turn ==> !IsCoded(m)) ==> code == UncodedCode(turn)
    ensures (exists m :: m in turn && IsBlocked(m)) ==>
              code == ContentPolicyViolation || exists m :: m in turn && IsCoded(m) && GivesCode(m, code)
  {
    if m :| m in turn && IsCoded(m) && WordsOf(m) * AUTH != {} {
      AuthLeads(turn, code, m);
    }
    if forall m :: m in turn ==> !IsCoded(m) {
      UncodedLeads(turn, code);
    }
    if m :| m in turn && IsBlocked(m) {
      BlockLeads(turn, code, m);
    }
  }

  /** The failure of a turn: none with image output, and the merge of its messages otherwise. */
  ghost function TurnFailure(turn: seq<Message>): Option<Failure> {
    if exists m :: m in turn && m.imageOutput then None else MergeAll(Classified(turn))
  }

  lemma NothingClassifies(turn: seq<Message>)
    ensures MergeAll(Classified(turn)).None? <==> forall m :: m in turn ==> !Classifies(m)
  {
    MergedCode(Classified(turn));
    forall m ensures ClassifyMessage(m).Some? <==> Classifies(m) {
      MessageClassifies(m);
    }
    if MergeAll(Classified(turn)).None? {
      forall m | m in turn ensures !Classifies(m) {
        var i :| 0 <= i < |turn| && turn[i] == m;
        assert Classified(turn)[i].None?;
      }
    } else {
      var k :| IsLeading(Classified(turn), k);
      assert turn[k] in turn && Classified(turn)[k] == ClassifyMessage(turn[k]);
    }
  }

  lemma MergedPolicy(turn: seq<Message>)
    requires MergeAll(Classified(turn)).Some?
    ensures var f := MergeAll(Classified(turn)).value; f.policy == PolicyOf(f.code) && f.retryAfter.None?
  {
    var k := MergedIsLatest(Classified(turn));
    var f, g := MergeAll(Classified(turn)).value, Classified(turn)[k].value;
    MessageDetail(turn[k]);
    assert f.policy == f.(raw := "", public := "").policy == g.(raw := "", public := "").policy;
    assert f.retryAfter == f.(raw := "", public := "").retryAfter == g.(raw := "", public := "").retryAfter;
  }

  lemma TurnIsSaid(turn: seq<Message>)
    ensures TurnSays(turn, TurnFailure(turn))
  {
    NothingClassifies(turn);
    if TurnFailure(turn).Some? {
      MergedCode(Classified(turn));
      MergedPolicy(turn);
      var k :| IsLeading(Classified(turn), k) && Classified(turn)[k].value.code == TurnFailure(turn).value.code;
      LeadingIsLeadingCode(turn, k);
      LeadingSays(turn, TurnFailure(turn).value.code);
    }
  }

  ghost predicate HasDetail(failures: seq<Option<Failure>>) {
    exists i :: 0 <= i < |failures| && failures[i].Some? && failures[i].value.raw != ""
  }

  method MergeTurn(turn: seq<Message>) returns (failure: Option<Failure>)
    ensures failure == MergeAll(Classified(turn))
  {
    failure := None;
    for i := 0 to |turn|
      invariant failure == MergeAll(Classified(turn[..i]))
    {
      var one := ClassifyOne(turn[i]);
      assert Classified(turn[..i + 1])[..i] == Classified(turn[..i]);
      failure := Merge(failure, one);
    }
    assert turn[..|turn|] == turn;
  }

  method ClassifyTurn(turn: seq<Message>) returns (failure: Option<Failure>)
    ensures failure == TurnFailure(turn)
  {
    if exists m :: m in turn && m.imageOutput {
      return None;
    }
    failure := MergeTurn(turn);
  }

  lemma TurnLeads(turn: seq<Message>)
    ensures var failure := TurnFailure(turn);
            && (failure.Some? ==> exists k :: IsLeading(Classified(turn), k) && GivesCode(turn[k], failure.value.code))
            && (failure.Some? ==> (failure.value.raw != "" <==> HasDetail(Classified(turn))))
  {
    MergedCode(Classified(turn));
    MergedDetail(Classified(turn));
  }

  /** `classify_conversation_failure`: nothing if and only if the turn has image output or no message of it
      classifies; otherwise the code of the earliest message of the highest priority, with raw detail if and
      only if some classified message has any. `TurnSays` tells the code by what the messages are. */
  method ClassifyConversation(conv: Conversation) returns (failure: Option<Failure>, turn: seq<Message>)
    ensures IsCurrentTurn(conv, turn)
    ensures failure == TurnFailure(turn) && TurnSays(turn, failure)
    ensures failure.Some? ==> exists k :: IsLeading(Classified(turn), k) && GivesCode(turn[k], failure.value.code)
    ensures failure.Some? ==> (failure.value.raw != "" <==> HasDetail(Classified(turn)))
  {
    turn := CurrentTurn(conv);
    failure := ClassifyTurn(turn);
    TurnIsSaid(turn);
    TurnLeads(turn);
  }
}
