/** Publishing record batches to Kafka topics, as a log of `publish_batch` calls. */
module Publishing {
  import opened Records

  datatype Batch = Batch(topic: string, records: seq<Record>)

  /** A `publish_batch` call the code makes in turn. It is `guarded` when a `try` block of its
      own catches a failure, so that the code goes on with the next call. */
  datatype Step = Step(batch: Batch, guarded: bool)

  /** A `publish_batch` call raises when it sends a record to a topic in `refused`. An empty
      batch makes no produce call, so it cannot raise. */
  predicate Raises(b: Batch, refused: set<string>) {
    b.records != [] && b.topic in refused
  }

  /** The batches that reach the log when `steps` are made in order: an unguarded publish that
      raises ends the run, a guarded one loses only its batch. */
  function Delivered(steps: seq<Step>, refused: set<string>): (out: seq<Batch>)
    ensures |out| <= |steps|
    ensures forall b :: b in out ==> b.records == [] || b.topic !in refused
  {
    if steps == [] then []
    else if !Raises(steps[0].batch, refused) then [steps[0].batch] + Delivered(steps[1..], refused)
    else if steps[0].guarded then Delivered(steps[1..], refused)
    else []
  }

  /** The batches of `steps`, in order. */
  function Batches(steps: seq<Step>): (out: seq<Batch>)
    ensures |out| == |steps|
    ensures forall i :: 0 <= i < |steps| ==> out[i] == steps[i].batch
  {
    if steps == [] then [] else [steps[0].batch] + Batches(steps[1..])
  }

  /** No unguarded step raises: the run reaches its end. */
  predicate Completes(steps: seq<Step>, refused: set<string>) {
    forall i :: 0 <= i < |steps| && !steps[i].guarded ==> !Raises(steps[i].batch, refused)
  }

  /** When no publish fails, every batch is delivered, in order. */
  lemma {:induction false} DeliveredWithoutFailures(steps: seq<Step>, refused: set<string>)
    requires forall i :: 0 <= i < |steps| ==> !Raises(steps[i].batch, refused)
    ensures Delivered(steps, refused) == Batches(steps)
  {
    if steps != [] {
      DeliveredWithoutFailures(steps[1..], refused);
    }
  }

  /** An unguarded failure at step `k` ends the run: nothing after it is delivered. */
  lemma {:induction false} DeliveredStopsAt(steps: seq<Step>, refused: set<string>, k: nat)
    requires k < |steps| && !steps[k].guarded && Raises(steps[k].batch, refused)
    ensures Delivered(steps, refused) == Delivered(steps[..k], refused)
  {
    if k > 0 {
      DeliveredStopsAt(steps[1..], refused, k - 1);
      assert steps[1..][..k - 1] == steps[..k][1..];
    }
  }

  /** A guarded failure costs only its own batch: the run goes on as if the step were absent. */
  lemma {:induction false} DeliveredSkipsGuarded(steps: seq<Step>, refused: set<string>, k: nat)
    requires k < |steps| && steps[k].guarded && Raises(steps[k].batch, refused)
    ensures Delivered(steps, refused) == Delivered(steps[..k] + steps[k + 1..], refused)
  {
    if k == 0 {
      assert steps[..0] + steps[1..] == steps[1..];
    } else {
      DeliveredSkipsGuarded(steps[1..], refused, k - 1);
      assert steps[1..][..k - 1] + steps[1..][k..] == (steps[..k] + steps[k + 1..])[1..];
    }
  }

  /** A run that completes delivers exactly the batches whose publish does not raise. */
  lemma {:induction false} CompletesDeliversAccepted(steps: seq<Step>, refused: set<string>)
    requires Completes(steps, refused)
    ensures Delivered(steps, refused) == Accepted(steps, refused)
  {
    if steps != [] {
      assert Completes(steps[1..], refused) by {
        forall i | 0 <= i < |steps[1..]| && !steps[1..][i].guarded
          ensures !Raises(steps[1..][i].batch, refused)
        {
          assert steps[1..][i] == steps[i + 1];
        }
      }
      CompletesDeliversAccepted(steps[1..], refused);
    }
  }

  /** Running two step lists one after the other: the second runs only when the first
      completes. */
  lemma {:induction false} DeliveredAppend(s1: seq<Step>, s2: seq<Step>, refused: set<string>)
    ensures Delivered(s1 + s2, refused)
         == Delivered(s1, refused) + (if Completes(s1, refused) then Delivered(s2, refused) else [])
  {
    if s1 == [] {
      assert s1 + s2 == s2;
    } else {
      assert (s1 + s2)[1..] == s1[1..] + s2;
      DeliveredAppend(s1[1..], s2, refused);
      if Completes(s1, refused) {
        assert Completes(s1[1..], refused) by {
          forall i | 0 <= i < |s1[1..]| && !s1[1..][i].guarded
            ensures !Raises(s1[1..][i].batch, refused)
          {
            assert s1[1..][i] == s1[i + 1];
          }
        }
      } else if !Raises(s1[0].batch, refused) || s1[0].guarded {
        var i :| 0 <= i < |s1| && !s1[i].guarded && Raises(s1[i].batch, refused);
        assert !Completes(s1[1..], refused) by {
          assert s1[1..][i - 1] == s1[i];
        }
      }
    }
  }

  /** Steps that deliver the same batches can replace each other after a common prefix. */
  lemma SameTail(s1: seq<Step>, s2: seq<Step>, s3: seq<Step>, refused: set<string>)
    requires Delivered(s2, refused) == Delivered(s3, refused)
    ensures Delivered(s1 + s2, refused) == Delivered(s1 + s3, refused)
  {
    DeliveredAppend(s1, s2, refused);
    DeliveredAppend(s1, s3, refused);
  }

  /** Two step lists run one after the other complete exactly when both do. */
  lemma CompletesAppend(s1: seq<Step>, s2: seq<Step>, refused: set<string>)
    ensures Completes(s1 + s2, refused) <==> Completes(s1, refused) && Completes(s2, refused)
  {
    if Completes(s1 + s2, refused) {
      forall i | 0 <= i < |s2| && !s2[i].guarded
        ensures !Raises(s2[i].batch, refused)
      {
        assert (s1 + s2)[|s1| + i] == s2[i];
      }
      forall i | 0 <= i < |s1| && !s1[i].guarded
        ensures !Raises(s1[i].batch, refused)
      {
        assert (s1 + s2)[i] == s1[i];
      }
    }
    if Completes(s1, refused) && Completes(s2, refused) {
      forall i | 0 <= i < |s1 + s2| && !(s1 + s2)[i].guarded
        ensures !Raises((s1 + s2)[i].batch, refused)
      {
        if i >= |s1| {
          assert (s1 + s2)[i] == s2[i - |s1|];
        }
      }
    }
  }

  /** The batches of the steps whose publish does not raise, in order. */
  function Accepted(steps: seq<Step>, refused: set<string>): (out: seq<Batch>)
    ensures |out| <= |steps|
  {
    if steps == [] then []
    else if Raises(steps[0].batch, refused) then Accepted(steps[1..], refused)
    else [steps[0].batch] + Accepted(steps[1..], refused)
  }

  /** The publish calls of a batch list made only for its non-empty batches, in list order, with
      no `try` block of their own. */
  function NonEmptySteps(bs: seq<Batch>): seq<Step> {
    if bs == [] then []
    else (if bs[0].records != [] then [Step(bs[0], false)] else []) + NonEmptySteps(bs[1..])
  }

  /** Exactly the non-empty batches are published, none is guarded, and there is no call at all
      when every batch is empty. */
  lemma {:induction false} NonEmptyStepsSpec(bs: seq<Batch>)
    ensures var steps := NonEmptySteps(bs);
      && (forall i :: 0 <= i < |steps| ==> !steps[i].guarded && steps[i].batch.records != [])
      && (forall b :: b in bs && b.records != [] <==> Step(b, false) in steps)
      && (steps == [] <==> forall i :: 0 <= i < |bs| ==> bs[i].records == [])
  {
    if bs != [] {
      NonEmptyStepsSpec(bs[1..]);
      var steps := NonEmptySteps(bs);
      var rest := NonEmptySteps(bs[1..]);
      var head := if bs[0].records != [] then [Step(bs[0], false)] else [];
      assert steps == head + rest;
      forall i | 0 <= i < |steps|
        ensures !steps[i].guarded && steps[i].batch.records != []
      {
        if i >= |head| {
          assert steps[i] == rest[i - |head|];
        }
      }
      forall b
        ensures b in bs && b.records != [] <==> Step(b, false) in steps
      {
        if b in bs && b.records != [] && b != bs[0] {
          assert b in bs[1..];
        }
      }
      if forall i :: 0 <= i < |bs[1..]| ==> bs[1..][i].records == [] {
        forall i | 0 <= i < |bs| && i > 0
          ensures bs[i].records == []
        {
          assert bs[i] == bs[1..][i - 1];
        }
      }
    }
  }

  /** Publishing a list's non-empty batches, one batch at a time: an empty batch makes no call,
      a refused one ends the run, any other is delivered before the rest. */
  lemma DeliveredNonEmptyCons(b: Batch, rest: seq<Batch>, refused: set<string>)
    ensures Delivered(NonEmptySteps([b] + rest), refused)
         == if b.records == [] then Delivered(NonEmptySteps(rest), refused)
            else if b.topic in refused then []
            else [b] + Delivered(NonEmptySteps(rest), refused)
  {
    assert ([b] + rest)[1..] == rest;
    if b.records != [] {
      assert NonEmptySteps([b] + rest) == [Step(b, false)] + NonEmptySteps(rest);
    } else {
      assert NonEmptySteps([b] + rest) == [] + NonEmptySteps(rest) == NonEmptySteps(rest);
    }
  }

  /** The publish calls keep the order of the list: the i-th and j-th calls publish batches that
      appear in that order in the list. */
  lemma {:induction false} NonEmptyStepsOrdered(bs: seq<Batch>, i: nat, j: nat)
    requires i < j < |NonEmptySteps(bs)|
    ensures exists a, b :: 0 <= a < b < |bs| && NonEmptySteps(bs)[i].batch == bs[a] && NonEmptySteps(bs)[j].batch == bs[b]
  {
    var steps := NonEmptySteps(bs);
    var rest := NonEmptySteps(bs[1..]);
    if bs[0].records != [] {
      assert steps == [Step(bs[0], false)] + rest;
      if i == 0 {
        var b := StepSource(bs[1..], j - 1);
        assert steps[j] == rest[j - 1] && bs[1..][b] == bs[b + 1];
        assert steps[i].batch == bs[0] && steps[j].batch == bs[b + 1];
      } else {
        NonEmptyStepsOrdered(bs[1..], i - 1, j - 1);
        var a, b :| 0 <= a < b < |bs[1..]| && rest[i - 1].batch == bs[1..][a] && rest[j - 1].batch == bs[1..][b];
        assert steps[i].batch == bs[a + 1] && steps[j].batch == bs[b + 1];
      }
    } else {
      assert steps == [] + rest;
      NonEmptyStepsOrdered(bs[1..], i, j);
      var a, b :| 0 <= a < b < |bs[1..]| && rest[i].batch == bs[1..][a] && rest[j].batch == bs[1..][b];
      assert steps[i].batch == bs[a + 1] && steps[j].batch == bs[b + 1];
    }
  }

  /** The list position of the batch the `k`-th call publishes. */
  lemma {:induction false} StepSource(bs: seq<Batch>, k: nat) returns (a: nat)
    requires k < |NonEmptySteps(bs)|
    ensures a < |bs| && NonEmptySteps(bs)[k].batch == bs[a]
  {
    var steps := NonEmptySteps(bs);
    var rest := NonEmptySteps(bs[1..]);
    if bs[0].records != [] && k == 0 {
      a := 0;
    } else {
      var k' := if bs[0].records != [] then k - 1 else k;
      assert steps == (if bs[0].records != [] then [Step(bs[0], false)] else []) + rest;
      assert steps[k] == rest[k'];
      var a' := StepSource(bs[1..], k');
      a := a' + 1;
      assert bs[1..][a'] == bs[a];
    }
  }

  /** The Kafka producer: the batches published so far. A publish that sends a record to a
      topic in `refused` raises before anything reaches the log. */
  class Publisher {
    var log: seq<Batch>
    const refused: set<string>

    constructor(refused: set<string>)
      ensures log == [] && this.refused == refused
    {
      log := [];
      this.refused := refused;
    }

    /** `publish_batch(topic, records)`; `ok` is false when it raises. */
    method PublishBatch(topic: string, records: seq<Record>) returns (ok: bool)
      modifies this
      ensures ok <==> records == [] || topic !in refused
      ensures log == if ok then old(log) + [Batch(topic, records)] else old(log)
    {
      ok := records == [] || topic !in refused;
      if ok {
        log := log + [Batch(topic, records)];
      }
    }
  }
}
