/** The code of the Java binding's lifecycle: EqService with the native service under it, and the flags
    of its Connections.  A method is what its thread does when no other thread steps in between. */
module JavaBinding {
  import opened Common
  import L = Lifecycle
  import opened JavaTeardown
  import opened JavaConnect

  class EqService {
    const isServer: bool
    var fidMap: set<Eq>
    var nativeCons: set<Eq>
    var status: map<Eq, Status>
    var javaCons: set<Eq>
    var objects: map<Eq, bool>
    var latches: set<Eq>
    var counted: set<Eq>
    var curCon: Option<Eq>
    var frees: multiset<Eq>
    var reapCons: seq<Eq>
    ghost var reaped: multiset<Eq>
    ghost var freed: set<Eq>
    ghost var results: seq<Result>
    ghost var user: UserPc
    ghost var eq: EqPc

    ghost function Value(): Sys
      reads this
    {
      Sys(isServer, fidMap, nativeCons, status, javaCons, objects, latches, counted, curCon, reaped, frees, freed,
          results, user, eq)
    }

    constructor (isServer: bool)
      ensures Value() == Init(isServer) && reapCons == []
    {
      this.isServer := isServer;
      fidMap, nativeCons, javaCons, latches, counted := {}, {}, {}, {}, {};
      status, objects, curCon := map[], map[], None;
      frees, reapCons := multiset{}, [];
      reaped, freed, results, user, eq := multiset{}, {}, [], Outside, Polling;
    }

    // ---------- connect ----------

    /** connect up to the second lookup of the latch; `e` is the event queue the stack opens. */
    method Connect(e: Eq, timed: bool)
      modifies this
      ensures Value() == Connected(old(Value()), e, timed) && reapCons == old(reapCons)
    {
      status := status[e := L.ConnectReq];
      nativeCons := nativeCons + {e};
      latches := latches + {e};
      fidMap := fidMap + {e};
      user := Polled(e, timed);
    }

    /** The lookup before the wait; false for the missing latch. */
    method FindLatch(e: Eq, timed: bool) returns (found: bool)
      requires user == Polled(e, timed)
      modifies this`user, this`results
      ensures Value() == Apply(old(Value()), GetLatch)
      ensures found <==> e in latches
    {
      found := e in latches;
      if found {
        user := Awaiting(e, timed);
      } else {
        results := results + [Result(e, timed, NoLatchThrown)];
        user := Outside;
      }
    }

    /** The end of connect, with the latch released or, for a timed call, the time-out passed. */
    method EndConnect(e: Eq, timed: bool, inTime: bool) returns (con: Option<Eq>)
      requires user == Awaiting(e, timed) && (if inTime then e in counted else timed)
      modifies this`user, this`results
      ensures Value() == Apply(old(Value()), if inTime then Return else TimeOut)
      ensures results == old(results) + [Result(e, timed, Got(con))]
    {
      if !timed {
        con := curCon;
      } else {
        con := None;
      }
      results := results + [Result(e, timed, Got(con))];
      user := Outside;
    }

    // ---------- the EQ thread ----------

    /** ACCEPT_EVENT in wait_eq_event1. */
    method AcceptEvent(e: Eq)
      modifies this`status, this`nativeCons, this`fidMap
      ensures Value() == Created(old(Value()), e, L.AcceptReq).(fidMap := old(fidMap) + {e})
    {
      status := status[e := L.AcceptReq];
      nativeCons := nativeCons + {e};
      fidMap := fidMap + {e};
    }

    /** CONNECTED_EVENT up to the connected callback; -1 when the native lookup fails. */
    method OnConnected(e: Eq) returns (ret: int)
      modifies this`objects, this`javaCons, this`eq
      ensures Value() == BeginConnected(old(Value()), e)
      ensures ret == -1 <==> e !in nativeCons
    {
      if e !in nativeCons {
        eq := Faulted(NoConnection);
        return -1;
      }
      EstablishConnection(e);
      eq := InCallback(e, false);
      ret := 0;
    }

    method EstablishConnection(e: Eq)
      modifies this`objects, this`javaCons
      ensures objects == old(objects)[e := true] && javaCons == old(javaCons) + {e}
    {
      objects := objects[e := true];
      javaCons := javaCons + {e};
    }

    /** The rest of CONNECTED_EVENT; false for the exception of a missing latch. */
    method AfterCallback(e: Eq) returns (ok: bool)
      requires eq.InCallback? && eq.e == e
      modifies this`curCon, this`counted, this`latches, this`status, this`eq
      ensures ok <==> isServer || e in old(latches)
      ensures ok ==> CountDownSpec(old(Value())).eq.Released? && Value() == FinishConnectedSpec(CountDownSpec(old(Value())))
      ensures !ok ==> Value() == CountDownSpec(old(Value()))
    {
      if !isServer {
        curCon := Some(e);
        if e !in latches {
          eq := Faulted(NoLatch);
          return false;
        }
        counted := counted + {e};
      }
      latches := latches - {e};
      status := status[e := L.Connected];
      eq := Polling;
      ok := true;
    }

    /** FI_SHUTDOWN in ExternalEqDemultiplexer::wait_event and then in wait_eq_event1. */
    method OnShutdown(e: Eq)
      modifies this`fidMap, this`nativeCons, this`status, this`reaped, this`javaCons, this`frees
      ensures Value() == PeerShutdown(old(Value()), e)
    {
      DeleteEqEvent(e);
      if e in nativeCons {
        status := status[e := L.Down];
        Reap(e);
      }
      CloseConnection(e);
    }

    // ---------- teardown ----------

    method Reap(e: Eq)
      modifies this`nativeCons, this`reaped
      ensures nativeCons == old(nativeCons) - {e} && reaped == old(reaped) + multiset{e}
    {
      nativeCons := nativeCons - {e};
      reaped := reaped + multiset{e};
    }

    method Shutdown1(e: Eq)
      modifies this`nativeCons, this`reaped, this`status
      ensures Value() == NativeShutdown(old(Value()), e)
    {
      if e in nativeCons && e in status && status[e].Rank() < L.Status.Down.Rank() {
        status := status[e := L.Down];
        Reap(e);
      }
    }

    method DeleteEqEvent(e: Eq)
      modifies this`fidMap
      ensures fidMap == old(fidMap) - {e}
    {
      if e in fidMap {
        fidMap := fidMap - {e};
      }
    }

    method CloseConnection(e: Eq)
      modifies this`frees, this`javaCons
      ensures Value() == Close(old(Value()), e)
    {
      if e in javaCons {
        frees := frees + multiset{e};
        javaCons := javaCons - {e};
      }
    }

    /** Connection.shutdown of the connection of e. */
    method ConnectionShutdown(e: Eq)
      requires e in objects
      modifies this`fidMap, this`nativeCons, this`status, this`reaped, this`javaCons, this`frees, this`objects, this`eq
      ensures Value() == LocalShutdownSpec(old(Value()), e)
    {
      if !objects[e] {
        return;
      }
      Shutdown1(e);
      ghost var native := Value();
      DeleteEqEvent(e);
      assert Value() == native.(fidMap := native.fidMap - {e});
      CloseConnection(e);
      objects := objects[e := false];
      eq := if eq.InCallback? && eq.e == e then InCallback(e, true) else eq;
    }

    /** Shuts down every queued connection, in order; shutdown callbacks queue no more. */
    method PendingReap()
      requires forall e <- reapCons :: e in objects
      modifies this
      ensures reapCons == [] && Value() == ShutdownAll(old(Value()), old(reapCons))
    {
      ghost var all := ShutdownAll(Value(), reapCons);
      while reapCons != []
        invariant forall e <- reapCons :: e in objects
        invariant ShutdownAll(Value(), reapCons) == all
        decreases |reapCons|
      {
        ghost var before, todo := Value(), reapCons;
        var e := reapCons[0];
        reapCons := reapCons[1..];
        ConnectionShutdown(e);
        assert Value() == LocalShutdownSpec(before, todo[0]) && reapCons == todo[1..];
      }
    }
  }
}
