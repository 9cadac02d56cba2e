/**
 What the critical sections of the scan registry do, on a map of active scans and the shared
 dispatcher. The array behind it is in ScanRegistry.dfy, the interleavings in ScanProtocol.dfy.
 */
module ScanTable {
  import opened Common

  /** The websocket server and the flag that guards a second start; a stop drops the server first. */
  datatype Dispatcher = Dispatcher(server: bool, running: bool)

  const Down := Dispatcher(false, false)
  const Up := Dispatcher(true, true)

  /** A running dispatcher refuses to be started again. */
  function StartDispatcher(d: Dispatcher, binds: bool): (Dispatcher, bool) {
    if d.running then (d, false)
    else if binds then (Up, true)
    else (Down, false)
  }

  datatype Scans<+W> = Scans(active: map<nat, W>, nextId: nat)

  datatype AddResult = Added | DispatcherStartFailed | AddOutOfMemory

  /** `binds` and `stored` say whether the server could bind and whether the entry could be stored. */
  function Add<W>(s: Scans<W>, d: Dispatcher, id: nat, w: W, binds: bool, stored: bool)
    : (Scans<W>, Dispatcher, AddResult)
  {
    var (started, ok) := if s.active == map[] then StartDispatcher(d, binds) else (d, true);
    if !ok then (s, started, DispatcherStartFailed)
    else if stored then (s.(active := s.active[id := w]), started, Added)
    else (s, if s.active == map[] then Down else d, AddOutOfMemory)
  }

  /** The worker taken out, and whether it was the last one. */
  function Remove<W>(s: Scans<W>, id: nat): (Scans<W>, Option<W>, bool) {
    if id !in s.active then (s, None, false)
    else
      var left := s.active - {id};
      (s.(active := left), Some(s.active[id]), left == map[])
  }

  ghost predicate IdsBelow<W>(s: Scans<W>) {
    0 < s.nextId && forall id :: id in s.active ==> 0 < id < s.nextId
  }
}
