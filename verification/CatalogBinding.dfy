/**
 The profiler's shared catalog binding. Every block that runs under the condition lock is one
 function on the protected fields; the class performs it in place.
 */
module CatalogBinding {
  import opened Outcomes

  type Catalog = nat

  /** The fields that the condition lock protects. */
  datatype Manager = Manager(
    current: Catalog,
    pending: int,
    running: int,
    paused: bool,
    closing: bool,
    closed: bool,
    readers: multiset<Catalog>,
    retired: set<Catalog>)

  function Opened(catalog: Catalog): Manager {
    Manager(catalog, 0, 0, false, false, false, multiset{}, {})
  }

  /** A retired catalog leaves the retired set with its last reader; its caller must close it. */
  function RetireReady(m: Manager, catalog: Catalog): (Manager, bool) {
    if catalog in m.retired && m.readers[catalog] == 0
    then (m.(retired := m.retired - {catalog}), true)
    else (m, false)
  }

  /** A job's thread borrows the job's own catalog; any other thread needs an open admission. */
  function Borrowed(m: Manager, local: Option<Catalog>, admission: bool): Option<(Manager, Catalog)> {
    if (m.closed || (admission && m.paused)) && local.None? then None
    else
      var catalog := if local.Some? then local.value else m.current;
      Some((m.(readers := m.readers + multiset{catalog}), catalog))
  }

  function Returned(m: Manager, catalog: Catalog): (Manager, bool) {
    RetireReady(m.(readers := m.readers - multiset{catalog}), catalog)
  }

  function HealthPinned(m: Manager): Option<(Manager, Catalog)> {
    if m.paused || m.closed then None
    else Some((m.(readers := m.readers + multiset{m.current}), m.current))
  }

  /** `queued` is the supervisor's answer to the job. */
  function Submitted(m: Manager, queued: bool): (Manager, bool) {
    if m.paused || m.closing then (m, false)
    else if queued then (m.(pending := m.pending + 1), true)
    else (m, false)
  }

  function RunBegun(m: Manager): Manager {
    m.(running := m.running + 1)
  }

  function RunEnded(m: Manager, catalog: Catalog): (Manager, bool) {
    var n := m.(running := m.running - 1, pending := m.pending - 1);
    RetireReady(if n.closed && n.running == 0 then n.(retired := n.retired + {n.current}) else n, catalog)
  }

  function RefreshPaused(m: Manager): Option<Manager> {
    if m.closing then None else Some(m.(paused := true))
  }

  /** The rebinding itself: the old catalog is retired, and closed at once if nobody reads it. */
  function Swapped(m: Manager, candidate: Catalog): Option<(Manager, bool)> {
    if m.closing then None
    else Some(RetireReady(m.(current := candidate, retired := m.retired + {m.current}), m.current))
  }

  function RefreshEnded(m: Manager): Manager {
    m.(paused := m.closing)
  }

  function StopBegun(m: Manager): Manager {
    m.(closing := true, paused := true)
  }

  function StopEnded(m: Manager): Manager {
    m.(pending := m.running)
  }

  function Closed(m: Manager): (Manager, bool) {
    var n := m.(closed := true, closing := true, paused := true);
    RetireReady(if n.running == 0 then n.(retired := n.retired + {n.current}) else n, n.current)
  }

  class ManagedSearch {
    var current: Catalog
    var pending: int
    var running: int
    var paused: bool
    var closing: bool
    var closed: bool
    var readers: multiset<Catalog>
    var retired: set<Catalog>

    ghost function View(): Manager
      reads this
    {
      Manager(current, pending, running, paused, closing, closed, readers, retired)
    }

    constructor (catalog: Catalog)
      ensures View() == Opened(catalog)
    {
      current, pending, running := catalog, 0, 0;
      paused, closing, closed := false, false, false;
      readers, retired := multiset{}, {};
    }

    method RetireIfReady(catalog: Catalog) returns (close: bool)
      modifies this
      ensures (View(), close) == RetireReady(old(View()), catalog)
    {
      if catalog in retired && readers[catalog] == 0 {
        retired := retired - {catalog};
        readers := readers[catalog := 0];
        assert readers == old(readers);
        return true;
      }
      return false;
    }

    method BorrowStart(local: Option<Catalog>, admission: bool) returns (catalog: Option<Catalog>)
      modifies this
      ensures match Borrowed(old(View()), local, admission)
              case None => View() == old(View()) && catalog == None
              case Some((m, c)) => View() == m && catalog == Some(c)
    {
      if (closed || (admission && paused)) && local.None? {
        return None;
      }
      var selected := if local.Some? then local.value else current;
      readers := readers[selected := readers[selected] + 1];
      assert readers == old(readers) + multiset{selected};
      return Some(selected);
    }

    method BorrowEnd(catalog: Catalog) returns (close: bool)
      requires catalog in readers
      modifies this
      ensures (View(), close) == Returned(old(View()), catalog)
    {
      readers := readers[catalog := readers[catalog] - 1];
      assert readers == old(readers) - multiset{catalog};
      close := RetireIfReady(catalog);
    }

    method HealthStart() returns (catalog: Option<Catalog>)
      modifies this
      ensures match HealthPinned(old(View()))
              case None => View() == old(View()) && catalog == None
              case Some((m, c)) => View() == m && catalog == Some(c)
    {
      if paused || closed {
        return None;
      }
      readers := readers[current := readers[current] + 1];
      assert readers == old(readers) + multiset{current};
      return Some(current);
    }

    method Submit(queued: bool) returns (accepted: bool)
      modifies this
      ensures (View(), accepted) == Submitted(old(View()), queued)
    {
      if paused || closing {
        return false;
      }
      pending := pending + 1;
      accepted := queued;
      if !accepted {
        pending := pending - 1;
      }
    }

    method RunStart()
      modifies this
      ensures View() == RunBegun(old(View()))
    {
      running := running + 1;
    }

    method RunEnd(catalog: Catalog) returns (close: bool)
      modifies this
      ensures (View(), close) == RunEnded(old(View()), catalog)
    {
      running := running - 1;
      pending := pending - 1;
      if closed && running == 0 {
        retired := retired + {current};
      }
      close := RetireIfReady(catalog);
    }

    /** A refresh starts unless the manager is shutting down, and pauses admission. */
    method RefreshStart() returns (ok: bool)
      modifies this
      ensures ok <==> !old(closing)
      ensures ok ==> View() == old(View()).(paused := true)
      ensures match RefreshPaused(old(View()))
              case None => !ok && View() == old(View())
              case Some(m) => ok && View() == m
    {
      if closing {
        return false;
      }
      paused := true;
      return true;
    }

    method Swap(candidate: Catalog) returns (swapped: bool, close: bool)
      modifies this
      ensures match Swapped(old(View()), candidate)
              case None => !swapped && !close && View() == old(View())
              case Some((m, c)) => swapped && close == c && View() == m
    {
      if closing {
        return false, false;
      }
      var previous := current;
      current := candidate;
      retired := retired + {previous};
      close := RetireIfReady(previous);
      swapped := true;
    }

    method RefreshEnd()
      modifies this
      ensures View() == RefreshEnded(old(View()))
    {
      paused := closing;
    }

    method StopStart()
      modifies this
      ensures View() == StopBegun(old(View()))
    {
      closing, paused := true, true;
    }

    method StopFinish()
      modifies this
      ensures View() == StopEnded(old(View()))
    {
      pending := running;
    }

    method Close() returns (close: bool)
      modifies this
      ensures (View(), close) == Closed(old(View()))
    {
      closed, closing, paused := true, true, true;
      if running == 0 {
        retired := retired + {current};
      }
      close := RetireIfReady(current);
    }
  }
}
