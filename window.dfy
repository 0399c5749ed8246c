/**
 * The lifecycle of a view window: a nullable native window handle that `Create`
 * sets (at most once until it is cleared) and `Destroy` clears after reporting the
 * destruction back to the store, plus the pure decisions taken by the handlers a
 * window installs on its native window (close chords, links to open).
 */
module WindowLifecycle {
  import opened Js
  import opened StoreTypes

  /**
   * What a window does to the world outside it: a call into Electron, where a
   * native window is named by a serial number, or a call of the store's `dispatch`.
   */
  datatype WindowCall =
    | NewBrowserWindow(serial: nat, path: string)
    | DestroyNative(serial: nat)
    | FocusApp
    | FocusNative(serial: nat)
    | Dispatched(action: Action)

  /** The native window left alive by a sequence of calls. */
  function Live(calls: seq<WindowCall>): Option<nat>
    decreases |calls|
  {
    if calls == [] then None
    else match calls[|calls| - 1]
      case NewBrowserWindow(s, _) => Some(s)
      case DestroyNative(_) => None
      case _ => Live(calls[..|calls| - 1])
  }

  /** The native windows constructed and not destroyed since, by serial. */
  function Open(calls: seq<WindowCall>): set<nat>
    decreases |calls|
  {
    if calls == [] then {}
    else
      var c := calls[|calls| - 1];
      if c.NewBrowserWindow? then Open(calls[..|calls| - 1]) + {c.serial}
      else if c.DestroyNative? then Open(calls[..|calls| - 1]) - {c.serial}
      else Open(calls[..|calls| - 1])
  }

  /** A native window is open exactly when it was constructed and no later call destroyed it. */
  lemma {:induction false} OpenExactly(calls: seq<WindowCall>, s: nat)
    ensures s in Open(calls) <==>
              exists i :: 0 <= i < |calls| && calls[i].NewBrowserWindow? && calls[i].serial == s
                          && forall j :: i < j < |calls| ==> calls[j] != DestroyNative(s)
    decreases |calls|
  {
    if calls != [] {
      var n := |calls| - 1;
      var init := calls[..n];
      OpenExactly(init, s);
      var c := calls[n];
      if c == DestroyNative(s) {
        assert s !in Open(calls);
        forall i | 0 <= i < |calls| && calls[i].NewBrowserWindow?
          ensures exists j :: i < j < |calls| && calls[j] == DestroyNative(s)
        {
          assert calls[n] == DestroyNative(s);
        }
      } else if c.NewBrowserWindow? && c.serial == s {
        assert s in Open(calls);
      } else {
        assert s in Open(calls) <==> s in Open(init);
        if s in Open(init) {
          var i :| 0 <= i < |init| && init[i].NewBrowserWindow? && init[i].serial == s
                   && forall j :: i < j < |init| ==> init[j] != DestroyNative(s);
          assert forall j :: i < j < |calls| ==> calls[j] != DestroyNative(s) by {
            forall j | i < j < |calls| ensures calls[j] != DestroyNative(s) {
              if j < n { assert calls[j] == init[j]; }
            }
          }
        } else {
          forall i | 0 <= i < |calls| && calls[i].NewBrowserWindow? && calls[i].serial == s
            ensures exists j :: i < j < |calls| && calls[j] == DestroyNative(s)
          {
            assert i < n;
            assert init[i] == calls[i];
            var j :| i < j < |init| && init[j] == DestroyNative(s);
            assert calls[j] == DestroyNative(s);
          }
        }
      }
    }
  }

  lemma AppendCall(calls: seq<WindowCall>, c: WindowCall)
    ensures (calls + [c])[..|calls|] == calls
    ensures Live(calls + [c]) == match c
      case NewBrowserWindow(s, _) => Some(s)
      case DestroyNative(_) => None
      case _ => Live(calls)
    ensures Open(calls + [c]) == if c.NewBrowserWindow? then Open(calls) + {c.serial}
                                 else if c.DestroyNative? then Open(calls) - {c.serial}
                                 else Open(calls)
  {
    assert (calls + [c])[..|calls|] == calls;
  }

  /** The calls `Create` makes: a new native window, unless one is alive. */
  function CreateCalls(instance: Option<nat>, serial: nat, path: string): seq<WindowCall> {
    if instance.Some? then [] else [NewBrowserWindow(serial, path)]
  }

  /**
   * The calls `Destroy` makes: reporting the destruction to the store, if a
   * `dispatch` has been set, then destroying the live native window, if any.
   */
  function DestroyCalls(hasDispatch: bool, id: string, instance: Option<nat>): seq<WindowCall> {
    (if hasDispatch then [Dispatched(DestroyIntent(id))] else [])
    + if instance.Some? then [DestroyNative(instance.value)] else []
  }

  /** The calls `Focus` makes: focusing the application, then the live native window, if any. */
  function FocusCalls(instance: Option<nat>): seq<WindowCall> {
    [FocusApp] + if instance.Some? then [FocusNative(instance.value)] else []
  }

  /** What of a window decides the calls it makes; `serial` is the number of calls made so far. */
  datatype WindowSnapshot =
    WindowSnapshot(id: string, path: string, hasDispatch: bool, instance: Option<nat>, serial: nat)

  class Window {
    const id: string
    const path: string
    /** The native window; `None` stands for `null`. */
    var instance: Option<nat>
    /** Whether `setDispatch` has been called; the store's `dispatch` itself is not modelled. */
    var hasDispatch: bool
    /** The calls made so far, in order. */
    var calls: seq<WindowCall>

    /**
     * The handle is the native window the calls left alive, and it is the only
     * native window constructed and not destroyed since: none is leaked.
     */
    ghost predicate Valid()
      reads this
    {
      && instance == Live(calls)
      && Open(calls) == if instance.Some? then {instance.value} else {}
    }

    constructor(id: string, path: string)
      ensures this.id == id && this.path == path
      ensures Valid() && !IsVisible()
      ensures !hasDispatch && calls == []
    {
      this.id := id;
      this.path := path;
      instance := None;
      hasDispatch := false;
      calls := [];
    }

    /** The fields that decide which calls the window makes next. */
    function Snapshot(): WindowSnapshot
      reads this
    {
      WindowSnapshot(id, path, hasDispatch, instance, |calls|)
    }

    /** `!!instance`: while the invariant holds, exactly when a native window is open. */
    predicate IsVisible()
      reads this
      ensures Valid() ==> (IsVisible() <==> Open(calls) != {})
    {
      instance.Some?
    }

    /** Materialises the window, unless it already is. */
    method Create()
      requires Valid()
      modifies this`instance, this`calls
      ensures Valid() && IsVisible()
      ensures calls == old(calls) + CreateCalls(old(instance), |old(calls)|, path)
      ensures old(IsVisible()) ==> instance == old(instance)
    {
      if instance.Some? {
        return;
      }
      var serial := |calls|;
      AppendCall(calls, NewBrowserWindow(serial, path));
      calls := calls + [NewBrowserWindow(serial, path)];
      instance := Some(serial);
    }

    /** Reports the destruction to the store, if it can, then clears the native window. */
    method Destroy()
      requires Valid()
      modifies this`instance, this`calls
      ensures Valid() && !IsVisible()
      ensures calls == old(calls) + DestroyCalls(hasDispatch, id, old(instance))
    {
      if hasDispatch {
        AppendCall(calls, Dispatched(DestroyIntent(id)));
        calls := calls + [Dispatched(DestroyIntent(id))];
      }
      if instance.Some? {
        AppendCall(calls, DestroyNative(instance.value));
        calls := calls + [DestroyNative(instance.value)];
      }
      instance := None;
    }

    method Focus()
      requires Valid()
      modifies this`calls
      ensures Valid() && instance == old(instance)
      ensures calls == old(calls) + FocusCalls(instance)
    {
      AppendCall(calls, FocusApp);
      calls := calls + [FocusApp];
      if instance.Some? {
        AppendCall(calls, FocusNative(instance.value));
        calls := calls + [FocusNative(instance.value)];
      }
    }

    method SetDispatch()
      modifies this`hasDispatch
      ensures hasDispatch
      ensures Valid() == old(Valid()) && IsVisible() == old(IsVisible())
    {
      hasDispatch := true;
    }

    /**
     * The `before-input-event` listener: while the window is materialised, a close
     * chord prevents the default and destroys the window; any other input is ignored.
     */
    method HandleBeforeInput(platform: string, input: KeyInput) returns (prevented: bool)
      requires Valid()
      modifies this`instance, this`calls
      ensures Valid()
      ensures prevented <==> old(IsVisible()) && ClosesWindow(platform, input)
      ensures prevented ==> !IsVisible() && calls == old(calls) + DestroyCalls(hasDispatch, id, old(instance))
      ensures !prevented ==> instance == old(instance) && calls == old(calls)
    {
      prevented := false;
      if instance.None? {
        return;
      }
      if platform == "darwin" && input.meta && input.key == "w" {
        prevented := true;
        Destroy();
        return;
      }
      if input.control && input.key == "w" {
        prevented := true;
        Destroy();
      }
    }

    /** The `close` and `closed` listeners: prevent the default and destroy the window. */
    method HandleClose() returns (prevented: bool)
      requires Valid()
      modifies this`instance, this`calls
      ensures Valid() && prevented && !IsVisible()
      ensures calls == old(calls) + DestroyCalls(hasDispatch, id, old(instance))
    {
      prevented := true;
      Destroy();
    }
  }

  /** The modifier keys and key of a keyboard input. */
  datatype KeyInput = KeyInput(control: bool, meta: bool, key: string)

  /** Command-W on macOS, and Control-W on every platform, close the window. */
  predicate ClosesWindow(platform: string, input: KeyInput) {
    (platform == "darwin" && input.meta && input.key == "w") || (input.control && input.key == "w")
  }

  /** Only `w` closes, and only with Control or Command held. */
  lemma OnlyModifiedWCloses(platform: string, input: KeyInput)
    requires input.key != "w" || (!input.control && !input.meta)
    ensures !ClosesWindow(platform, input)
  {
  }

  lemma ControlWClosesEverywhere(platform: string, meta: bool)
    ensures ClosesWindow(platform, KeyInput(true, meta, "w"))
  {
  }

  lemma MetaWClosesOnlyOnDarwin(platform: string)
    ensures ClosesWindow(platform, KeyInput(false, true, "w")) <==> platform == "darwin"
  {
  }

  datatype OpenAction = Allow | Deny

  /** What the window-open handler answers, and whether it hands the URL to the browser. */
  datatype OpenResponse = OpenResponse(action: OpenAction, openExternally: bool)

  /** A link never opens a new window; `http(s)` links go to the user's browser. */
  function WindowOpenHandler(url: string): (r: OpenResponse)
    ensures r.action == Deny
    ensures r.openExternally <==> "http" <= url
  {
    if !StartsWith(url, "http") then OpenResponse(Deny, false)
    else OpenResponse(Deny, true)
  }
}
