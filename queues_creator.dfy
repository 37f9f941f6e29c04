/** Queue provisioning at install time: every enabled `IWantQueueCreated`
    instance gets its queue created, for the installing identity, in the order
    the container lists the instances. The container lookup and the settings
    are passed in; the transport's queue creator only records the calls it gets. */
module Queuing {
  import opened Wrappers

  /** An endpoint address: a queue on a machine. */
  datatype Address = Address(queue: string, machine: string)

  /** One `IWantQueueCreated` instance as the container builds it: the full
      name of its type, its `IsDisabled` flag and its `Address`, which may be null. */
  datatype QueueRequester = QueueRequester(typeFullName: string, isDisabled: bool, address: Option<Address>)

  /** One `CreateQueueIfNecessary(address, account)` call on the queue creator. */
  datatype CreateQueueCall = CreateQueueCall(address: Address, account: string)

  /** The message of the `InvalidOperationException` raised for a null address. */
  function NullAddressMessage(typeFullName: string): string
  {
    "IWantQueueCreated implementation " + typeFullName + " returned a null address"
  }

  /** The requesters that are not disabled, in list order (the `Where` filter). */
  function Enabled(rs: seq<QueueRequester>): (e: seq<QueueRequester>)
    ensures |e| <= |rs|
    ensures forall j :: 0 <= j < |e| ==> !e[j].isDisabled
  {
    if rs == [] then []
    else if rs[0].isDisabled then Enabled(rs[1..])
    else [rs[0]] + Enabled(rs[1..])
  }

  /** The filter keeps the relative order of the list: filtering a concatenation
      is concatenating the filtered parts. */
  lemma {:induction false} EnabledDistributes(a: seq<QueueRequester>, b: seq<QueueRequester>)
    ensures Enabled(a + b) == Enabled(a) + Enabled(b)
  {
    if a == [] {
      assert a + b == b;
    } else {
      assert (a + b)[0] == a[0];
      assert (a + b)[1..] == a[1..] + b;
      EnabledDistributes(a[1..], b);
    }
  }

  /** The filter keeps exactly the enabled requesters of the list. */
  lemma {:induction false} EnabledMembers(rs: seq<QueueRequester>)
    ensures forall j :: 0 <= j < |Enabled(rs)| ==> Enabled(rs)[j] in rs
    ensures forall r :: r in rs && !r.isDisabled ==> r in Enabled(rs)
  {
    if rs != [] {
      EnabledMembers(rs[1..]);
      assert forall r :: r in rs ==> r == rs[0] || r in rs[1..];
    }
  }

  /** The position of the first requester with a null address, or `|e|` when
      every requester has one. */
  function FirstNullAddress(e: seq<QueueRequester>): (k: nat)
    ensures k <= |e|
    ensures forall j :: 0 <= j < k ==> e[j].address.Some?
    ensures k < |e| ==> e[k].address.None?
  {
    if e == [] then 0
    else if e[0].address.None? then 0
    else 1 + FirstNullAddress(e[1..])
  }

  /** The first null address is unique: a position whose predecessors all have
      an address and which itself has none (or is the end) is that position. */
  lemma FirstNullAddressIsUnique(e: seq<QueueRequester>, k: nat)
    requires k <= |e|
    requires forall j :: 0 <= j < k ==> e[j].address.Some?
    requires k < |e| ==> e[k].address.None?
    ensures FirstNullAddress(e) == k
  {
  }

  /** Extending a fully addressed prefix by one addressed requester appends
      exactly that requester's call. */
  lemma CreationCallsExtend(e: seq<QueueRequester>, i: nat, identity: string)
    requires i < |e|
    requires forall j :: 0 <= j <= i ==> e[j].address.Some?
    ensures CreationCalls(e[..i + 1], identity)
         == CreationCalls(e[..i], identity) + [CreateQueueCall(e[i].address.value, identity)]
  {
    var left := CreationCalls(e[..i + 1], identity);
    var right := CreationCalls(e[..i], identity) + [CreateQueueCall(e[i].address.value, identity)];
    assert |left| == |right|;
    forall j | 0 <= j < |left|
      ensures left[j] == right[j]
    {
    }
  }

  /** A disabled requester drops out of the filtered list. */
  lemma EnabledSkipsDisabled(a: seq<QueueRequester>, d: QueueRequester, b: seq<QueueRequester>)
    requires d.isDisabled
    ensures Enabled(a + [d] + b) == Enabled(a + b)
  {
    EnabledDistributes(a + [d], b);
    EnabledDistributes(a, [d]);
    EnabledDistributes(a, b);
    assert [d][1..] == [];
    assert Enabled([d]) == [];
  }

  /** The creation calls for requesters that all have an address: one per
      requester, in order, each for `identity`. */
  function CreationCalls(e: seq<QueueRequester>, identity: string): (calls: seq<CreateQueueCall>)
    requires forall j :: 0 <= j < |e| ==> e[j].address.Some?
    ensures |calls| == |e|
    ensures forall j :: 0 <= j < |e| ==> calls[j] == CreateQueueCall(e[j].address.value, identity)
  {
    if e == [] then []
    else [CreateQueueCall(e[0].address.value, identity)] + CreationCalls(e[1..], identity)
  }

  /** The calls `Install` makes: none on a send-only endpoint or when queue
      creation is switched off; otherwise one per enabled requester up to, not
      including, the first one with a null address. */
  function InstallCalls(sendOnly: bool, dontCreateQueues: bool, instances: seq<QueueRequester>, identity: string): seq<CreateQueueCall>
  {
    if sendOnly || dontCreateQueues then []
    else
      var e := Enabled(instances);
      CreationCalls(e[..FirstNullAddress(e)], identity)
  }

  /** How `Install` completes: normally, or with the exception raised for the
      first enabled requester whose address is null. */
  function InstallOutcome(sendOnly: bool, dontCreateQueues: bool, instances: seq<QueueRequester>): Outcome<string>
  {
    if sendOnly || dontCreateQueues then Pass
    else
      var e := Enabled(instances);
      var k := FirstNullAddress(e);
      if k == |e| then Pass else Fail(NullAddressMessage(e[k].typeFullName))
  }

  /** The transport's queue creator, reduced to the calls it receives. */
  class QueueCreator {
    var calls: seq<CreateQueueCall>

    constructor ()
      ensures calls == []
    {
      calls := [];
    }

    method CreateQueueIfNecessary(address: Address, account: string)
      modifies this
      ensures calls == old(calls) + [CreateQueueCall(address, account)]
    {
      calls := calls + [CreateQueueCall(address, account)];
    }
  }

  /** The installer that creates the queues the endpoint's components ask for. */
  class QueuesCreator {
    const queueCreator: QueueCreator

    constructor (queueCreator: QueueCreator)
      ensures this.queueCreator == queueCreator
    {
      this.queueCreator := queueCreator;
    }

    /** Creates the queue of every enabled requester, for `identity`.
        `sendOnly` is the "Endpoint.SendOnly" setting, `dontCreateQueues` the
        switch set by `ConfigureQueueCreation`, `instances` what the container
        builds for `IWantQueueCreated`. */
    method Install(identity: string, sendOnly: bool, dontCreateQueues: bool, instances: seq<QueueRequester>)
      returns (outcome: Outcome<string>)
      modifies queueCreator
      ensures queueCreator.calls == old(queueCreator.calls) + InstallCalls(sendOnly, dontCreateQueues, instances, identity)
      ensures outcome == InstallOutcome(sendOnly, dontCreateQueues, instances)
    {
      if sendOnly {
        return Pass;
      }
      if dontCreateQueues {
        return Pass;
      }
      var wantQueueCreated := Enabled(instances);
      var i := 0;
      while i < |wantQueueCreated|
        invariant 0 <= i <= |wantQueueCreated|
        invariant forall j :: 0 <= j < i ==> wantQueueCreated[j].address.Some?
        invariant queueCreator.calls == old(queueCreator.calls) + CreationCalls(wantQueueCreated[..i], identity)
      {
        var requester := wantQueueCreated[i];
        if requester.address.None? {
          FirstNullAddressIsUnique(wantQueueCreated, i);
          return Fail(NullAddressMessage(requester.typeFullName));
        }
        queueCreator.CreateQueueIfNecessary(requester.address.value, identity);
        CreationCallsExtend(wantQueueCreated, i, identity);
        i := i + 1;
      }
      FirstNullAddressIsUnique(wantQueueCreated, i);
      assert wantQueueCreated[..i] == wantQueueCreated;
      outcome := Pass;
    }
  }

  /** A send-only endpoint creates no queue and completes normally. */
  lemma SendOnlyInstallsNothing(dontCreateQueues: bool, instances: seq<QueueRequester>, identity: string)
    ensures InstallCalls(true, dontCreateQueues, instances, identity) == []
    ensures InstallOutcome(true, dontCreateQueues, instances) == Pass
  {
  }

  /** With queue creation switched off no queue is created. */
  lemma DontCreateQueuesInstallsNothing(sendOnly: bool, instances: seq<QueueRequester>, identity: string)
    ensures InstallCalls(sendOnly, true, instances, identity) == []
    ensures InstallOutcome(sendOnly, true, instances) == Pass
  {
  }

  /** A disabled requester, wherever it stands in the list and whatever its
      address, changes neither the calls made nor how `Install` completes. */
  lemma DisabledRequesterIgnored(a: seq<QueueRequester>, d: QueueRequester, b: seq<QueueRequester>, identity: string)
    requires d.isDisabled
    ensures InstallCalls(false, false, a + [d] + b, identity) == InstallCalls(false, false, a + b, identity)
    ensures InstallOutcome(false, false, a + [d] + b) == InstallOutcome(false, false, a + b)
  {
    EnabledSkipsDisabled(a, d, b);
  }

  /** When every enabled requester has an address, `Install` completes
      normally after exactly one call per enabled requester, in list order,
      all for the same identity. */
  lemma InstallSucceedsWithOneCallPerEnabled(instances: seq<QueueRequester>, identity: string)
    requires forall r :: r in instances && !r.isDisabled ==> r.address.Some?
    ensures InstallOutcome(false, false, instances) == Pass
    ensures var e := Enabled(instances);
      && |InstallCalls(false, false, instances, identity)| == |e|
      && forall j :: 0 <= j < |e| ==>
           InstallCalls(false, false, instances, identity)[j] == CreateQueueCall(e[j].address.value, identity)
  {
    var e := Enabled(instances);
    EnabledMembers(instances);
    FirstNullAddressIsUnique(e, |e|);
    assert e[..|e|] == e;
  }

  /** When an enabled requester `r` with a null address follows requesters
      `a` whose enabled members all have an address, `Install` fails naming
      the type of `r`, and the calls already made are exactly the ones a
      successful `Install` over `a` alone makes: one per enabled requester
      preceding `r`. */
  lemma NullAddressStopsAfterPrecedingCalls(a: seq<QueueRequester>, r: QueueRequester, b: seq<QueueRequester>, identity: string)
    requires forall x :: x in a && !x.isDisabled ==> x.address.Some?
    requires !r.isDisabled && r.address.None?
    ensures InstallOutcome(false, false, a + [r] + b) == Fail(NullAddressMessage(r.typeFullName))
    ensures InstallCalls(false, false, a + [r] + b, identity) == InstallCalls(false, false, a, identity)
    ensures InstallOutcome(false, false, a) == Pass
  {
    var ea := Enabled(a);
    EnabledMembers(a);
    EnabledDistributes(a + [r], b);
    EnabledDistributes(a, [r]);
    assert [r][1..] == [];
    assert Enabled([r]) == [r];
    var e := Enabled(a + [r] + b);
    assert e == ea + [r] + Enabled(b);
    FirstNullAddressIsUnique(e, |ea|);
    FirstNullAddressIsUnique(ea, |ea|);
    assert e[..|ea|] == ea == ea[..|ea|];
  }
}
