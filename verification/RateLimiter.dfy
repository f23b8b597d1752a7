// The per-endpoint fixed-window limiter of the relay, with opportunistic purging.
module RateLimiter {
  // time.Minute in nanoseconds.
  const RATE_WINDOW: int := 60_000_000_000
  const RATE_LIMIT: int := 60
  const PURGE_ABOVE: int := 10000

  // ------------------------------------------------------------------ specification

  datatype Window = Window(count: int, start: int)

  type Windows = map<string, Window>

  predicate Expired(w: Window, now: int) {
    now - w.start > RATE_WINDOW
  }

  // The windows that are still open at a time.
  function Unexpired(ws: Windows, now: int): Windows {
    map k | k in ws && !Expired(ws[k], now) :: ws[k]
  }

  predicate Opens(ws: Windows, key: string, now: int) {
    key !in ws || Expired(ws[key], now)
  }

  predicate Admits(ws: Windows, key: string, now: int) {
    Opens(ws, key, now) || ws[key].count < RATE_LIMIT
  }

  function Purged(ws: Windows, now: int): Windows {
    if |ws| > PURGE_ABOVE then Unexpired(ws, now) else ws
  }

  function Allowed(ws: Windows, key: string, now: int): Windows {
    if Opens(ws, key, now) then Purged(ws, now)[key := Window(1, now)]
    else if ws[key].count < RATE_LIMIT then ws[key := ws[key].(count := ws[key].count + 1)]
    else ws
  }

  // -------------------------------------------------------------------- the limiter

  class WindowCell {
    ghost const key: string  // the one key that uses this window
    var count: int
    var start: int

    constructor (ghost key: string, count: int, start: int)
      ensures this.key == key && View() == Window(count, start)
    {
      this.key, this.count, this.start := key, count, start;
    }

    function View(): Window
      reads this
    {
      Window(count, start)
    }
  }

  class Limiter {
    var windows: map<string, WindowCell>
    ghost var view: Windows  // the windows by value

    ghost predicate Valid()
      reads this, windows.Values
    {
      && windows.Keys == view.Keys
      && (forall k | k in windows :: windows[k].key == k && windows[k].View() == view[k])
    }

    constructor ()
      ensures Valid() && windows == map[] && view == map[]
    {
      windows, view := map[], map[];
    }

    method Allow(key: string, now: int) returns (ok: bool)
      requires Valid()
      modifies this, windows.Values
      ensures Valid() && (forall k | k in windows :: windows[k] in old(windows.Values) || fresh(windows[k]))
      ensures view == Allowed(old(view), key, now)
      ensures ok == Admits(old(view), key, now)
    {
      if key !in windows || now - windows[key].start > RATE_WINDOW {
        Open(key, now);
        return true;
      }
      var w := windows[key];
      if w.count >= RATE_LIMIT {
        return false;
      }
      w.count := w.count + 1;
      view := view[key := w.View()];
      return true;
    }

    // The branch of Allow that starts a window.
    method Open(key: string, now: int)
      requires Valid()
      modifies this
      ensures Valid() && (forall k | k in windows :: windows[k] in old(windows.Values) || fresh(windows[k]))
      ensures view == Purged(old(view), now)[key := Window(1, now)]
    {
      PurgeExpired(now);
      var w := new WindowCell(key, 1, now);
      windows, view := windows[key := w], view[key := Window(1, now)];
    }

    // Drops expired windows from a large map, ranging over it while deleting from it.
    method PurgeExpired(now: int)
      requires Valid()
      modifies this
      ensures Valid() && (forall k | k in windows :: windows[k] in old(windows.Values))
      ensures view == Purged(old(view), now)
    {
      assert |windows.Keys| == |windows| && |view.Keys| == |view|;
      if |windows| <= PURGE_ABOVE {
        return;
      }
      ghost var cells, before := windows, view;
      var todo := windows.Keys;
      while todo != {}
        invariant Purging(cells, before, todo, now)
        decreases todo
      {
        var k :| k in todo;
        DropIfExpired(k, now, cells, before, todo);
        todo := todo - {k};
      }
    }

    // All but the windows still to be looked at are unexpired ones.
    ghost predicate Purging(cells: map<string, WindowCell>, before: Windows, todo: set<string>, now: int)
      reads this, windows.Values
    {
      && Valid() && todo <= windows.Keys <= cells.Keys
      && (forall k | k in windows :: windows[k] == cells[k])
      && (forall k | k in view :: k in before && view[k] == before[k])
      && (forall k | k in before && k !in todo :: k in view <==> !Expired(before[k], now))
    }

    method DropIfExpired(k: string, now: int, ghost cells: map<string, WindowCell>, ghost before: Windows,
                         ghost todo: set<string>)
      requires Purging(cells, before, todo, now) && k in todo
      modifies this
      ensures Purging(cells, before, todo - {k}, now)
    {
      if now - windows[k].start > RATE_WINDOW {
        windows, view := windows - {k}, view - {k};
      }
    }
  }
}
