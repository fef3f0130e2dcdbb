/**
 From one claim's messages to handler invocations: messages without a handler and messages
 of single handlers go one by one, messages of batch handlers are grouped by type and cut
 into chunks.
 */
module Dispatch {
  import opened Rows
  import opened Protocol

  datatype Registration = Registration(batch: bool, maxInflight: int, maxBatchSize: int, maxAttempts: int)

  type Registry = map<EventType, Registration>

  /** One handler invocation, or one message without a handler. */
  type Job = seq<Token>

  /** The messages of one type, in claim order. */
  function OfType(msgs: seq<Token>, et: EventType): seq<Token> {
    if msgs == [] then []
    else
      var rest, m := OfType(msgs[..|msgs| - 1], et), msgs[|msgs| - 1];
      if m.eventType == et then rest + [m] else rest
  }

  /** The jobs of one type, laid end to end. */
  function Laid(jobs: seq<Job>, et: EventType): seq<Token> {
    if jobs == [] then []
    else
      var rest, j := Laid(jobs[..|jobs| - 1], et), jobs[|jobs| - 1];
      if j != [] && j[0].eventType == et then rest + j else rest
  }

  /** The largest chunk of a group of `size` messages. */
  function ChunkSize(reg: Registration, size: nat): nat {
    if reg.maxBatchSize <= 0 || reg.maxBatchSize > size then size else reg.maxBatchSize
  }

  predicate WellShaped(reg: Registry, j: Job) {
    && j != []
    && (forall k :: 0 <= k < |j| ==> j[k].eventType == j[0].eventType)
    && (|j| > 1 ==> j[0].eventType in reg && reg[j[0].eventType].batch)
    && (j[0].eventType in reg && reg[j[0].eventType].maxBatchSize > 0 ==> |j| <= reg[j[0].eventType].maxBatchSize)
  }

  /** Each type's jobs are its messages in order, cut into permitted pieces. */
  ghost predicate IsPlan(reg: Registry, msgs: seq<Token>, jobs: seq<Job>) {
    && (forall k :: 0 <= k < |jobs| ==> WellShaped(reg, jobs[k]))
    && (forall et :: Laid(jobs, et) == OfType(msgs, et))
  }

  lemma LaidSnoc(jobs: seq<Job>, j: Job, et: EventType)
    ensures Laid(jobs + [j], et) == if j != [] && j[0].eventType == et then Laid(jobs, et) + j else Laid(jobs, et)
  {
    assert (jobs + [j])[..|jobs|] == jobs;
  }

  /** `out` holds the earlier jobs and then this much of one type's messages. */
  ghost predicate Extends(jobs: seq<Job>, et: EventType, part: seq<Token>, out: seq<Job>) {
    forall e :: Laid(out, e) == if e == et then Laid(jobs, e) + part else Laid(jobs, e)
  }

  lemma ExtendsAt(jobs: seq<Job>, et: EventType, part: seq<Token>, out: seq<Job>, chunk: Job, e: EventType)
    requires Laid(out, e) == (if e == et then Laid(jobs, e) + part else Laid(jobs, e)) && chunk != []
    requires chunk[0].eventType == et
    ensures Laid(out + [chunk], e) == if e == et then Laid(jobs, e) + (part + chunk) else Laid(jobs, e)
  {
    LaidSnoc(out, chunk, e);
    Regroup(Laid(jobs, e), part, chunk);
  }

  lemma Regroup(a: seq<Token>, b: seq<Token>, c: seq<Token>)
    ensures a + b + c == a + (b + c)
  {
  }

  lemma ExtendsSnoc(jobs: seq<Job>, et: EventType, part: seq<Token>, out: seq<Job>, chunk: Job)
    requires Extends(jobs, et, part, out) && chunk != [] && chunk[0].eventType == et
    ensures Extends(jobs, et, part + chunk, out + [chunk])
  {
    forall e ensures Laid(out + [chunk], e) == if e == et then Laid(jobs, e) + (part + chunk) else Laid(jobs, e) {
      ExtendsAt(jobs, et, part, out, chunk, e);
    }
  }

  predicate FullChunk(reg: Registration, j: Job) {
    reg.maxBatchSize >= 1 && |j| == reg.maxBatchSize
  }

  /** From the given one on, every job has the registered size. */
  predicate AllFull(reg: Registration, out: seq<Job>, from: nat) {
    forall k :: from <= k < |out| ==> FullChunk(reg, out[k])
  }

  lemma OneMoreChunk(reg: Registration, out: seq<Job>, from: nat, chunk: Job)
    requires AllFull(reg, out, from) && FullChunk(reg, chunk)
    ensures AllFull(reg, out + [chunk], from)
  {
  }

  lemma ChunkShaped(reg: Registry, et: EventType, group: seq<Token>, i: nat, end: nat)
    requires et in reg && reg[et].batch && i < end <= |group|
    requires forall k :: 0 <= k < |group| ==> group[k].eventType == et
    requires reg[et].maxBatchSize > 0 ==> end - i <= reg[et].maxBatchSize
    ensures WellShaped(reg, group[i..end]) && group[i..end][0].eventType == et
  {
  }

  method DispatchBatches(reg: Registry, jobs: seq<Job>, et: EventType, group: seq<Token>) returns (out: seq<Job>)
    requires et in reg && reg[et].batch && group != []
    requires forall k :: 0 <= k < |group| ==> group[k].eventType == et
    requires forall k :: 0 <= k < |jobs| ==> WellShaped(reg, jobs[k])
    ensures forall k :: 0 <= k < |out| ==> WellShaped(reg, out[k])
    ensures Extends(jobs, et, group, out)
    ensures jobs < out && AllFull(reg[et], out[..|out| - 1], |jobs|)
  {
    var size := ChunkSize(reg[et], |group|);
    out := jobs;
    var i := 0;
    while i < |group|
      invariant 0 <= i <= |group|
      invariant forall k :: 0 <= k < |out| ==> WellShaped(reg, out[k])
      invariant Extends(jobs, et, group[..i], out)
      invariant jobs <= out && (i > 0 ==> jobs < out)
      invariant i < |group| ==> AllFull(reg[et], out, |jobs|)
      invariant i == |group| ==> AllFull(reg[et], out[..|out| - 1], |jobs|)
    {
      var end := if i + size < |group| then i + size else |group|;
      ChunkShaped(reg, et, group, i, end);
      ExtendsSnoc(jobs, et, group[..i], out, group[i..end]);
      assert group[..i] + group[i..end] == group[..end];
      if end < |group| { OneMoreChunk(reg[et], out, |jobs|, group[i..end]); }
      assert (out + [group[i..end]])[..|out|] == out;
      out := out + [group[i..end]];
      i := end;
    }
    assert group[..i] == group;
  }

  /** Grouped types wait in `groups`, every other type is already laid out. */
  ghost predicate Partitioned(reg: Registry, msgs: seq<Token>, jobs: seq<Job>, groups: map<EventType, seq<Token>>) {
    && (forall j :: 0 <= j < |jobs| ==> WellShaped(reg, jobs[j]))
    && (forall et :: et in groups ==> et in reg && reg[et].batch && groups[et] != [])
    && (forall et :: OfType(msgs, et) == if et in groups then groups[et] else Laid(jobs, et))
    && (forall et :: et in groups ==> Laid(jobs, et) == [])
  }

  lemma AddSingle(reg: Registry, msgs: seq<Token>, m: Token, jobs: seq<Job>, groups: map<EventType, seq<Token>>)
    requires Partitioned(reg, msgs, jobs, groups) && !(m.eventType in reg && reg[m.eventType].batch)
    ensures Partitioned(reg, msgs + [m], jobs + [[m]], groups)
  {
    assert (msgs + [m])[..|msgs|] == msgs;
    forall et ensures Laid(jobs + [[m]], et) == if et == m.eventType then Laid(jobs, et) + [m] else Laid(jobs, et) {
      LaidSnoc(jobs, [m], et);
    }
  }

  lemma AddGrouped(reg: Registry, msgs: seq<Token>, m: Token, jobs: seq<Job>, groups: map<EventType, seq<Token>>)
    requires Partitioned(reg, msgs, jobs, groups) && m.eventType in reg && reg[m.eventType].batch
    requires m.eventType !in groups ==> Laid(jobs, m.eventType) == []
    ensures Partitioned(reg, msgs + [m], jobs,
                        groups[m.eventType := (if m.eventType in groups then groups[m.eventType] else []) + [m]])
  {
    assert (msgs + [m])[..|msgs|] == msgs;
  }

  method Partition(reg: Registry, msgs: seq<Token>) returns (jobs: seq<Job>, groups: map<EventType, seq<Token>>)
    ensures Partitioned(reg, msgs, jobs, groups)
  {
    jobs, groups := [], map[];
    for k := 0 to |msgs|
      invariant Partitioned(reg, msgs[..k], jobs, groups)
      invariant forall et :: et in reg && reg[et].batch ==> Laid(jobs, et) == []
    {
      var m := msgs[k];
      assert msgs[..k + 1] == msgs[..k] + [m];
      if m.eventType in reg && reg[m.eventType].batch {
        AddGrouped(reg, msgs[..k], m, jobs, groups);
        var group := if m.eventType in groups then groups[m.eventType] else [];
        groups := groups[m.eventType := group + [m]];
      } else {
        AddSingle(reg, msgs[..k], m, jobs, groups);
        forall et | et != m.eventType ensures Laid(jobs + [[m]], et) == Laid(jobs, et) { LaidSnoc(jobs, [m], et); }
        jobs := jobs + [[m]];
      }
    }
    assert msgs[..|msgs|] == msgs;
  }

  /** Laying out one waiting group moves it from `groups` to the jobs. */
  lemma GroupLaid(reg: Registry, msgs: seq<Token>, jobs: seq<Job>, groups: map<EventType, seq<Token>>, et: EventType,
                  out: seq<Job>)
    requires Partitioned(reg, msgs, jobs, groups) && et in groups && Extends(jobs, et, groups[et], out)
    requires forall k :: 0 <= k < |out| ==> WellShaped(reg, out[k])
    ensures Partitioned(reg, msgs, out, groups - {et})
  {
    assert Laid(jobs, et) + groups[et] == groups[et];
    forall e ensures OfType(msgs, e) == if e in groups - {et} then groups[e] else Laid(out, e) {
    }
  }

  /** The partition step of pollOnce, then the batch groups in any order. */
  lemma Fewer(groups: map<EventType, seq<Token>>, et: EventType)
    requires et in groups
    ensures |groups - {et}| < |groups|
  {
    assert groups.Keys == (groups - {et}).Keys + {et};
  }

  method PlanPoll(reg: Registry, msgs: seq<Token>) returns (jobs: seq<Job>)
    ensures IsPlan(reg, msgs, jobs)
  {
    var groups;
    jobs, groups := Partition(reg, msgs);
    while groups != map[]
      invariant Partitioned(reg, msgs, jobs, groups)
      decreases |groups|
    {
      var et :| et in groups;
      OfTypeUniform(msgs, et);
      var out := DispatchBatches(reg, jobs, et, groups[et]);
      GroupLaid(reg, msgs, jobs, groups, et, out);
      Fewer(groups, et);
      jobs, groups := out, groups - {et};
    }
  }

  lemma {:induction false} OfTypeUniform(msgs: seq<Token>, et: EventType)
    ensures forall k :: 0 <= k < |OfType(msgs, et)| ==> OfType(msgs, et)[k].eventType == et
    decreases |msgs|
  {
    if msgs != [] {
      OfTypeUniform(msgs[..|msgs| - 1], et);
    }
  }

  // ----- Nothing lost, nothing twice ---------------------------------------------------

  function Tokens(jobs: seq<Job>): multiset<Token> {
    if jobs == [] then multiset{} else Tokens(jobs[..|jobs| - 1]) + multiset(jobs[|jobs| - 1])
  }

  lemma Snoc(s: seq<Token>, t: seq<Token>, x: Token)
    ensures multiset(s + t)[x] == multiset(s)[x] + multiset(t)[x]
  {
  }

  lemma UniformCount(j: Job, x: Token)
    requires j != [] && forall k :: 0 <= k < |j| ==> j[k].eventType == j[0].eventType
    ensures j[0].eventType != x.eventType ==> multiset(j)[x] == 0
  {
  }

  lemma {:induction false} LaidCount(reg: Registry, jobs: seq<Job>, x: Token)
    requires forall k :: 0 <= k < |jobs| ==> WellShaped(reg, jobs[k])
    ensures multiset(Laid(jobs, x.eventType))[x] == Tokens(jobs)[x]
    decreases |jobs|
  {
    if jobs != [] {
      var rest, j := jobs[..|jobs| - 1], jobs[|jobs| - 1];
      LaidCount(reg, rest, x);
      UniformCount(j, x);
      Snoc(Laid(rest, x.eventType), j, x);
    }
  }

  lemma {:induction false} OfTypeCount(msgs: seq<Token>, x: Token)
    ensures multiset(OfType(msgs, x.eventType))[x] == multiset(msgs)[x]
    decreases |msgs|
  {
    if msgs != [] {
      var rest, m := msgs[..|msgs| - 1], msgs[|msgs| - 1];
      OfTypeCount(rest, x);
      assert msgs == rest + [m];
      Snoc(OfType(rest, x.eventType), [m], x);
    }
  }

  /** A plan disposes of every claimed message exactly once. */
  lemma PlanIsComplete(reg: Registry, msgs: seq<Token>, jobs: seq<Job>)
    requires IsPlan(reg, msgs, jobs)
    ensures Tokens(jobs) == multiset(msgs)
  {
    forall x ensures Tokens(jobs)[x] == multiset(msgs)[x] {
      LaidCount(reg, jobs, x);
      OfTypeCount(msgs, x);
    }
  }

  lemma {:induction false} TokensHead(jobs: seq<Job>)
    requires jobs != []
    ensures Tokens(jobs) == multiset(jobs[0]) + Tokens(jobs[1..])
    decreases |jobs|
  {
    if |jobs| > 1 {
      var n := |jobs| - 1;
      TokensHead(jobs[..n]);
      assert jobs[..n][1..] == jobs[1..][..n - 1];
    }
  }
}
