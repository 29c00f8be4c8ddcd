/** The life cycle of a libcephfs mount handle and of the three objects it owns.  Objects are
    numbered as they are created; a second deletion of an object would set `doubleFree`. */
module MountHandle {
  import opened Options

  type Id = nat

  datatype Handle = Handle(
    mounted: bool, inited: bool,
    client: Option<Id>, messenger: Option<Id>, monclient: Option<Id>,
    next: Id, deleted: set<Id>, doubleFree: bool)

  /** How the calls that `init` makes turn out; a client may fail to start with any code. */
  datatype Outcome = MonMapFails | MessengerFails | ClientFails(code: int) | Succeeds

  /** The API calls; `Mount` carries the outcome of the `init` it may make and of `client->mount`. */
  datatype Call = Init(init: Outcome) | Mount(init: Outcome, code: int) | Unmount | Shutdown

  const EISCONN := 106
  const ENOTCONN := 107
  const ERROR_MON_MAP_BUILD := 1000
  const ERROR_MESSENGER_START := 1003

  const FRESH := Handle(false, false, None, None, None, 0, {}, false)

  // ---------------------------------------------------------------- the calls on values

  function Delete(h: Handle, p: Option<Id>): Handle {
    if p.None? then h
    else h.(deleted := h.deleted + {p.value}, doubleFree := h.doubleFree || p.value in h.deleted)
  }

  function DoShutdown(h: Handle): Handle {
    Delete(Delete(Delete(h, h.messenger), h.monclient), h.client)
      .(mounted := false, inited := false, client := None, messenger := None, monclient := None)
  }

  function DoInit(h: Handle, o: Outcome): Handle {
    match o
    case MonMapFails => DoShutdown(h.(monclient := Some(h.next), next := h.next + 1))
    case Succeeds => Created(h).(inited := true)
    case _ => DoShutdown(Created(h))
  }

  /** The handle once all three objects have been made. */
  function Created(h: Handle): Handle {
    h.(monclient := Some(h.next), messenger := Some(h.next + 1), client := Some(h.next + 2), next := h.next + 3)
  }

  function DoMount(h: Handle, o: Outcome, code: int): Handle {
    if h.mounted then h
    else
      var ready := if h.inited then h else DoInit(h, o);
      if !ready.inited then ready
      else if code != 0 then DoShutdown(ready)
      else ready.(mounted := true)
  }

  function Do(h: Handle, c: Call): Handle {
    match c
    case Init(o) => DoInit(h, o)
    case Mount(o, code) => DoMount(h, o, code)
    case Unmount => if h.mounted then DoShutdown(h) else h
    case Shutdown => DoShutdown(h)
  }

  // ---------------------------------------------------------------- the handle

  class MountInfo {
    var mounted: bool
    var inited: bool
    var client: Option<Id>
    var messenger: Option<Id>
    var monclient: Option<Id>
    var next: Id
    var deleted: set<Id>
    var doubleFree: bool

    ghost function View(): Handle
      reads this
    {
      Handle(mounted, inited, client, messenger, monclient, next, deleted, doubleFree)
    }

    constructor ()
      ensures View() == FRESH
    {
      mounted, inited := false, false;
      client, messenger, monclient := None, None, None;
      next, deleted, doubleFree := 0, {}, false;
    }

    method New() returns (p: Option<Id>)
      modifies `next
      ensures p == Some(old(next)) && next == old(next) + 1
    {
      p := Some(next);
      next := next + 1;
    }

    method Init(o: Outcome) returns (ret: int)
      requires o.ClientFails? ==> o.code != 0
      modifies this
      ensures View() == DoInit(old(View()), o)
      ensures ret == match o
                     case MonMapFails => -ERROR_MON_MAP_BUILD
                     case MessengerFails => -ERROR_MESSENGER_START
                     case ClientFails(code) => code
                     case Succeeds => 0
      ensures if o.Succeeds? then inited && Holds(View(), old(next)) && mounted == old(mounted) else Blank(View())
    {
      hide DoShutdown;
      monclient := New();
      ret := -ERROR_MON_MAP_BUILD;
      if !o.MonMapFails? {
        messenger := New();
        client := New();
        assert View() == Created(old(View()));
        ret := -ERROR_MESSENGER_START;
        if !o.MessengerFails? {
          ret := if o.ClientFails? then o.code else 0;
          if ret == 0 {
            inited := true;
            return;
          }
        }
      }
      Shutdown();
    }

    method Mount(o: Outcome, code: int) returns (ret: int)
      requires o.ClientFails? ==> o.code != 0
      modifies this
      ensures View() == DoMount(old(View()), o, code)
      ensures old(mounted) ==> ret == -EISCONN && View() == old(View())
      ensures !old(mounted) ==> (mounted <==> (old(inited) || o.Succeeds?) && code == 0)
      ensures !mounted ==> Blank(View())
      ensures !old(mounted) && (old(inited) || o.Succeeds?) ==> ret == code
      ensures !old(mounted) && !old(inited) ==>
                match o
                case MonMapFails => ret == -ERROR_MON_MAP_BUILD
                case MessengerFails => ret == -ERROR_MESSENGER_START
                case ClientFails(error) => ret == error
                case Succeeds => true
    {
      if mounted {
        return -EISCONN;
      }
      if !inited {
        ret := Init(o);
        if ret != 0 {
          return;
        }
      }
      ret := code;
      if ret != 0 {
        Shutdown();
      } else {
        mounted := true;
      }
    }

    method Unmount() returns (ret: int)
      modifies this
      ensures View() == Do(old(View()), Call.Unmount)
      ensures if old(mounted) then ret == 0 && Blank(View()) else ret == -ENOTCONN && View() == old(View())
    {
      if !mounted {
        return -ENOTCONN;
      }
      Shutdown();
      return 0;
    }

    method DeleteObject(p: Option<Id>)
      modifies `deleted, `doubleFree
      ensures View() == Delete(old(View()), p)
    {
      if p.Some? {
        doubleFree := doubleFree || p.value in deleted;
        deleted := deleted + {p.value};
      }
    }

    method Shutdown()
      modifies this
      ensures View() == DoShutdown(old(View())) && Blank(View())
      ensures Sane(old(View())) ==> Sane(View()) && forall id: Id :: Leaked(View(), id) <==> Leaked(old(View()), id)
    {
      hide Sane, Leaked;
      if Sane(View()) {
        ShutdownBlank(View());
      }
      mounted, inited := false, false;
      DeleteObject(messenger);
      messenger := None;
      DeleteObject(monclient);
      monclient := None;
      DeleteObject(client);
      client := None;
    }

    /** `ceph_release`: refused while mounted, otherwise the destructor shuts the handle down. */
    method Release() returns (ret: int)
      modifies this
      ensures if old(mounted) then ret == -EISCONN && View() == old(View())
              else ret == 0 && View() == DoShutdown(old(View())) && Blank(View())
    {
      if mounted {
        return -EISCONN;
      }
      Shutdown();
      return 0;
    }

    /** `ceph_shutdown`: the handle is shut down, and once more by its destructor. */
    method ShutdownAndDelete()
      modifies this
      ensures View() == DoShutdown(old(View())) && Blank(View())
    {
      Shutdown();
      Shutdown();
    }
  }

  // ---------------------------------------------------------------- every sequence of calls

  ghost predicate Holds(h: Handle, id: Id) {
    h.client == Some(id) || h.messenger == Some(id) || h.monclient == Some(id)
  }

  /** A mounted handle is initialised, an initialised one holds all three objects, any other none;
      what it holds was made, is not deleted and is not held twice; nothing was deleted twice. */
  ghost predicate Sane(h: Handle) {
    && (h.mounted ==> h.inited)
    && (if h.inited then h.client.Some? && h.messenger.Some? && h.monclient.Some? &&
                         h.client != h.messenger && h.messenger != h.monclient && h.client != h.monclient
        else h.client.None? && h.messenger.None? && h.monclient.None?)
    && (forall id: Id :: Holds(h, id) ==> id < h.next && id !in h.deleted)
    && (forall id: Id :: id in h.deleted ==> id < h.next)
    && !h.doubleFree
  }

  /** Made, no longer held, never deleted. */
  ghost predicate Leaked(h: Handle, id: Id) {
    id < h.next && !Holds(h, id) && id !in h.deleted
  }

  ghost predicate LeakFree(h: Handle) {
    forall id: Id :: !Leaked(h, id)
  }

  ghost predicate Blank(h: Handle) {
    !h.mounted && !h.inited && h.client.None? && h.messenger.None? && h.monclient.None?
  }

  lemma ShutdownBlank(h: Handle)
    requires Sane(h)
    ensures Sane(DoShutdown(h)) && Blank(DoShutdown(h)) && DoShutdown(h).next == h.next
    ensures forall id: Id :: id in DoShutdown(h).deleted <==> id in h.deleted || Holds(h, id)
    ensures forall id: Id :: Leaked(DoShutdown(h), id) <==> Leaked(h, id)
  {
  }

  /** Initialising leaks exactly when the handle was initialised already; a failure leaves it blank, a
      success leaves it with three new objects and no others. */
  lemma InitEffect(h: Handle, o: Outcome)
    requires Sane(h)
    ensures Sane(DoInit(h, o)) && (!o.Succeeds? ==> Blank(DoInit(h, o)))
    ensures o.Succeeds? ==> DoInit(h, o).inited && DoInit(h, o).mounted == h.mounted
    ensures o.Succeeds? ==> forall id: Id :: Holds(DoInit(h, o), id) <==> h.next <= id < h.next + 3
    ensures h.inited ==> Leaked(DoInit(h, o), h.monclient.value)
    ensures forall id: Id :: Leaked(h, id) ==> Leaked(DoInit(h, o), id)
    ensures !h.inited ==> forall id: Id :: Leaked(DoInit(h, o), id) ==> Leaked(h, id)
  {
    assert h.inited ==> Holds(h, h.monclient.value);
  }

  /** An unmounted handle is mounted if and only if it is or becomes initialised and `client->mount`
      succeeds; otherwise it is left blank.  A handle that was initialised keeps its objects.  A mounted
      handle stays as it is.  Nothing leaks. */
  lemma MountEffect(h: Handle, o: Outcome, code: int)
    requires Sane(h)
    ensures Sane(DoMount(h, o, code)) && (!DoMount(h, o, code).mounted ==> Blank(DoMount(h, o, code)))
    ensures if h.mounted then DoMount(h, o, code) == h
            else DoMount(h, o, code).mounted <==> (h.inited || o.Succeeds?) && code == 0
    ensures h.inited && DoMount(h, o, code).mounted ==>
              forall id: Id :: Holds(DoMount(h, o, code), id) <==> Holds(h, id)
    ensures forall id: Id :: Leaked(DoMount(h, o, code), id) <==> Leaked(h, id)
  {
    InitEffect(h, o);
    ShutdownBlank(if h.inited then h else DoInit(h, o));
  }

  /** What each call of the API comes to. */
  lemma CallEffect(h: Handle, c: Call)
    requires Sane(h)
    ensures match c
            case Init(o) => if o.Succeeds? then Do(h, c).inited && Do(h, c).mounted == h.mounted else Blank(Do(h, c))
            case Mount(o, code) =>
              if h.mounted then Do(h, c) == h
              else if (h.inited || o.Succeeds?) && code == 0 then Do(h, c).mounted
              else Blank(Do(h, c))
            case Unmount => if h.mounted then Blank(Do(h, c)) else Do(h, c) == h
            case Shutdown => Blank(Do(h, c))
  {
  }

  function After(calls: seq<Call>): Handle {
    if calls == [] then FRESH else Do(After(calls[..|calls| - 1]), calls[|calls| - 1])
  }

  /** No call of `init` on a handle that is already initialised. */
  predicate InitOnce(calls: seq<Call>) {
    calls != [] ==>
      InitOnce(calls[..|calls| - 1]) && (calls[|calls| - 1].Init? ==> !After(calls[..|calls| - 1]).inited)
  }

  /** Over every sequence of calls the handle stays sane, and it leaks an object if and only if some
      call was `init` on an initialised handle. */
  lemma {:induction false} NoLeakIff(calls: seq<Call>)
    ensures Sane(After(calls))
    ensures LeakFree(After(calls)) <==> InitOnce(calls)
  {
    if calls != [] {
      var front, call := calls[..|calls| - 1], calls[|calls| - 1];
      var h := After(front);
      NoLeakIff(front);
      match call
      case Init(o) =>
        InitEffect(h, o);
        assert LeakFree(DoInit(h, o)) <==> LeakFree(h) && !h.inited;
      case Mount(o, code) => MountEffect(h, o, code);
      case Unmount => ShutdownBlank(h);
      case Shutdown => ShutdownBlank(h);
    }
  }

  /** Initialised twice, the handle loses the three objects of the first time: they are not held and,
      once it is shut down, have not been deleted. */
  lemma SecondInitLeaks()
    ensures var h := After([Init(Succeeds), Init(Succeeds)]);
            Leaked(h, 0) && Leaked(h, 1) && Leaked(h, 2) && DoShutdown(h).deleted == {3, 4, 5}
  {
    var calls := [Init(Succeeds), Init(Succeeds)];
    assert calls[..1] == [Init(Succeeds)] && calls[..1][..0] == [];
    assert After(calls[..1]) == DoInit(FRESH, Succeeds);
  }

  /** When the handle is finally released or shut down, every object ever made has been deleted
      exactly once if and only if `init` was never called on an initialised handle. */
  lemma {:induction false} DeletedExactlyOnceIff(calls: seq<Call>)
    ensures var h := DoShutdown(After(calls));
            !h.doubleFree && ((forall id: Id :: id < h.next <==> id in h.deleted) <==> InitOnce(calls))
  {
    NoLeakIff(calls);
    ShutdownBlank(After(calls));
    var h := DoShutdown(After(calls));
    if InitOnce(calls) {
      forall id: Id ensures id < h.next <==> id in h.deleted { assert !Leaked(h, id); }
    } else {
      var id: Id :| Leaked(After(calls), id);
      assert Leaked(h, id);
    }
  }
}
