/**
 The queue of blocked operations (src/waker.rs) and the selection cell of a
 blocked thread (src/context.rs) as the objects they are: contexts shared by
 reference between queues and threads, each a machine word and a packet, one call
 at a time. `ZeroProtocol` has the same operations on values, a step for each
 access, so that other threads come in between; there a context is known by its
 thread and an entry cannot be aliased.
 */
module Waker {
  import opened Common
  import opened Select

  class Context {
    var select: nat
    var packet: nat
    const thread: nat

    constructor (thread: nat)
      ensures this.thread == thread && select == WordOf(Waiting) && packet == 0
    {
      this.thread, select, packet := thread, WordOf(Waiting), 0;
    }

    method Reset()
      modifies this
      ensures select == WordOf(Waiting) && packet == 0
    {
      select := WordOf(Waiting);
      packet := 0;
    }

    /** One-shot: only the first selection after a reset succeeds; the others are told which it was. */
    method TrySelect(s: Selected) returns (found: Option<Selected>)
      requires s.Operation? ==> IsOper(s.oper)
      modifies `select
      ensures found.None? <==> old(SelectedOf(select)) == Waiting
      ensures select == if found.None? then WordOf(s) else old(select)
      ensures found.Some? ==> found.value == old(SelectedOf(select))
    {
      if select == WordOf(Waiting) {
        select := WordOf(s);
        found := None;
      } else {
        found := Some(SelectedOf(select));
      }
    }

    method StorePacket(p: nat)
      modifies `packet
      ensures packet == if p != 0 then p else old(packet)
    {
      if p != 0 {
        packet := p;
      }
    }
  }

  datatype Entry = Entry(oper: nat, packet: nat, cx: Context)

  /** Entry `i` is gone; those before it stay, those behind it move up by one. */
  function Without(q: seq<Entry>, i: nat): (r: seq<Entry>)
    requires i < |q|
    ensures |r| == |q| - 1
    ensures forall j :: 0 <= j < i ==> r[j] == q[j]
    ensures forall j :: i <= j < |r| ==> r[j] == q[j + 1]
  {
    q[..i] + q[i + 1..]
  }

  /** The place of the first entry of operation `oper`, or the length. */
  function FirstOf(q: seq<Entry>, oper: nat): (i: nat)
    ensures i <= |q| && (i < |q| ==> q[i].oper == oper)
    ensures forall j :: 0 <= j < i ==> q[j].oper != oper
  {
    if q == [] || q[0].oper == oper then 0 else 1 + FirstOf(q[1..], oper)
  }

  /** The entry can be selected by thread `me`: another thread's, still waiting. */
  predicate Selectable(e: Entry, me: nat)
    reads e.cx
  {
    e.cx.thread != me && e.cx.select == WordOf(Waiting)
  }

  /** Entry `i` is the first that thread `me` can select. */
  ghost predicate IsFirst(q: seq<Entry>, me: nat, i: nat)
    reads set e | e in q :: e.cx
  {
    i < |q| && Selectable(q[i], me) && forall j :: 0 <= j < i ==> !Selectable(q[j], me)
  }

  class Waker {
    var selectors: seq<Entry>

    ghost function Cells(): set<Context>
      reads this
    {
      set e | e in selectors :: e.cx
    }

    constructor ()
      ensures selectors == []
    {
      selectors := [];
    }

    method RegisterWithPacket(oper: nat, packet: nat, cx: Context)
      modifies this
      ensures selectors == old(selectors) + [Entry(oper, packet, cx)]
    {
      selectors := selectors + [Entry(oper, packet, cx)];
    }

    /** Removes the first entry of the operation; the others keep their order. */
    method Unregister(oper: nat) returns (r: Option<Entry>)
      modifies this
      ensures r.None? <==> forall e :: e in old(selectors) ==> e.oper != oper
      ensures r.None? ==> selectors == old(selectors)
      ensures r.Some? ==> var i := FirstOf(old(selectors), oper);
        i < |old(selectors)| && r.value == old(selectors)[i] && r.value.oper == oper && selectors == Without(old(selectors), i)
    {
      var i := 0;
      while i < |selectors|
        invariant i <= |selectors| && selectors == old(selectors)
        invariant forall j :: 0 <= j < i ==> selectors[j].oper != oper
      {
        if selectors[i].oper == oper {
          assert FirstOf(selectors, oper) == i;
          r := Some(selectors[i]);
          selectors := selectors[..i] + selectors[i + 1..];
          return;
        }
        i := i + 1;
      }
      r := None;
    }

    /**
     Selects the first entry of another thread that is still waiting, gives its
     cell the operation and the packet, and removes it. If there is none nothing changes.
     */
    method TrySelect(me: nat) returns (r: Option<Entry>)
      requires forall e :: e in selectors ==> IsOper(e.oper)
      modifies this, Cells()
      ensures r.None? ==> selectors == old(selectors) && (forall e :: e in selectors ==> unchanged(e.cx) && !Selectable(e, me))
      ensures r.Some? ==> exists i: nat :: old(IsFirst(selectors, me, i)) && r.value == old(selectors)[i] && selectors == Without(old(selectors), i)
      ensures r.Some? ==> r.value.cx.select == WordOf(Operation(r.value.oper))
      ensures forall e :: e in old(selectors) ==>
        if r.None? || e.cx != r.value.cx then unchanged(e.cx)
        else e.cx.packet == if r.value.packet != 0 then r.value.packet else old(e.cx.packet)
    {
      var i := 0;
      while i < |selectors|
        invariant i <= |selectors| && selectors == old(selectors)
        invariant forall e :: e in selectors ==> unchanged(e.cx)
        invariant forall j :: 0 <= j < i ==> !old(Selectable(selectors[j], me))
      {
        var e := selectors[i];
        if e.cx.thread != me {
          var found := e.cx.TrySelect(Operation(e.oper));
          if found.None? {
            e.cx.StorePacket(e.packet);
            assert old(IsFirst(selectors, me, i));
            r := Some(e);
            selectors := selectors[..i] + selectors[i + 1..];
            return;
          }
        }
        i := i + 1;
      }
      r := None;
    }

    /** Every entry still waiting becomes disconnected; none is removed, none selected before is touched. */
    method Disconnect()
      modifies Cells()
      ensures forall e :: e in selectors ==>
        e.cx.select == (if old(e.cx.select) == WordOf(Waiting) then WordOf(Disconnected) else old(e.cx.select))
        && e.cx.packet == old(e.cx.packet)
    {
      var i := 0;
      while i < |selectors|
        invariant i <= |selectors| && forall e :: e in selectors ==> e.cx.packet == old(e.cx.packet)
        invariant forall j :: 0 <= j < i ==> selectors[j].cx.select != WordOf(Waiting)
        invariant forall e :: e in selectors ==>
          e.cx.select == old(e.cx.select) || (old(e.cx.select) == WordOf(Waiting) && e.cx.select == WordOf(Disconnected))
      {
        var _ := selectors[i].cx.TrySelect(Disconnected);
        i := i + 1;
      }
    }
  }
}
