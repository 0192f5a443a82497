/**
 * DG.TwoDLineModel: the model of a movable line on a graph.  This module
 * covers its flags: the intercept lock (locking puts the intercept at the
 * origin), the lazy-recompute flag, the defaults set by `init`, and the lock's
 * place in the saved document.  Slope and intercept are reals; the only value
 * these methods ever give the intercept themselves is 0.
 */
module TwoDLine {
  import opened Wrappers

  /** The fields the model's own methods read or write.  `intercept` and
      `xIntercept` are None while null; `isVisible` belongs to the superclass. */
  datatype LineState = LineState(
    slope: real,
    intercept: Option<real>,
    isVertical: bool,
    xIntercept: Option<real>,
    interceptLocked: bool,
    needsComputing: bool,
    isVisible: bool)

  /** The property `createStorage` adds to the stored object; None when a stored
      document does not have it. */
  datatype LineStorage = LineStorage(isInterceptLocked: Option<bool>)

  /** A locked intercept sits at the origin. */
  predicate LockedAtOrigin(s: LineState)
  {
    s.interceptLocked ==> s.intercept == Some(0.0)
  }

  /** The state `init` leaves: slope 1, not vertical, no x-intercept, the
      intercept unlocked and still null, and a recompute pending. */
  function Initial(isVisible: bool): (s: LineState)
    ensures s.slope == 1.0 && !s.isVertical && s.xIntercept == None && s.intercept == None
    ensures !s.interceptLocked && s.needsComputing && s.isVisible == isVisible
    ensures LockedAtOrigin(s)
  {
    LineState(1.0, None, false, None, false, true, isVisible)
  }

  /** The `isInterceptLocked` computed property called with `iLocked`: undefined
      makes it a read; a value is recorded as the lock, and a truthy one puts the
      intercept at 0.  Nothing else changes, and afterwards a locked intercept
      sits at the origin whenever a value was given or it already did. */
  function SetLock(s: LineState, iLocked: Option<bool>): (r: LineState)
    ensures iLocked == None ==> r == s
    ensures iLocked == Some(true) ==> r == s.(interceptLocked := true, intercept := Some(0.0))
    ensures iLocked == Some(false) ==> r == s.(interceptLocked := false)
    ensures iLocked.Some? || LockedAtOrigin(s) ==> LockedAtOrigin(r)
  {
    match iLocked
    case None => s
    case Some(locked) =>
      var t := s.(interceptLocked := locked);
      if locked then t.(intercept := Some(0.0)) else t
  }

  /** `toggleInterceptLocked`. */
  function Toggle(s: LineState): (r: LineState)
    ensures r.interceptLocked == !s.interceptLocked
    ensures r.interceptLocked ==> r.intercept == Some(0.0)
    ensures !r.interceptLocked ==> r.intercept == s.intercept
    ensures r.(interceptLocked := s.interceptLocked, intercept := s.intercept) == s
  {
    SetLock(s, Some(!s.interceptLocked))
  }

  /** Toggling twice restores the lock; the intercept is left at the origin,
      since one of the two toggles locked it. */
  lemma ToggleTwice(s: LineState)
    ensures Toggle(Toggle(s)) == s.(intercept := Some(0.0))
  {
  }

  /** `isComputingNeeded`. */
  predicate ComputingNeeded(s: LineState)
  {
    s.needsComputing && s.isVisible
  }

  /** `createStorage`, for the property this class adds. */
  function Storage(s: LineState): (st: LineStorage)
  {
    LineStorage(Some(s.interceptLocked))
  }

  /** Restoring a stored line into any model gives it the stored lock; restoring
      into the same model changes nothing while the lock invariant holds. */
  lemma RestoreStorageRoundTrip(s: LineState, into: LineState)
    ensures SetLock(into, Storage(s).isInterceptLocked).interceptLocked == s.interceptLocked
    ensures LockedAtOrigin(s) ==> SetLock(s, Storage(s).isInterceptLocked) == s
  {
  }

  class TwoDLineModel {
    var slope: real
    var intercept: Option<real>
    var isVertical: bool
    var xIntercept: Option<real>
    var interceptLocked: bool
    var needsComputing: bool
    var isVisible: bool

    function State(): LineState
      reads this
    {
      LineState(slope, intercept, isVertical, xIntercept, interceptLocked, needsComputing, isVisible)
    }

    /** `init`, with the superclass's visibility given. */
    constructor (isVisible: bool)
      ensures State() == Initial(isVisible)
    {
      slope := 1.0;
      intercept := None;
      isVertical := false;
      xIntercept := None;
      interceptLocked := false;
      needsComputing := true;
      this.isVisible := isVisible;
    }

    /** The `isInterceptLocked` computed property: `get` passes None and only
        reads; `set` passes the value.  Either way it returns the lock as it
        stands afterwards. */
    method IsInterceptLocked(iLocked: Option<bool>) returns (locked: bool)
      modifies this
      ensures State() == SetLock(old(State()), iLocked)
      ensures locked == interceptLocked
      ensures locked == if iLocked.Some? then iLocked.value else old(interceptLocked)
    {
      if iLocked.Some? {
        interceptLocked := iLocked.value;
        if iLocked.value {
          intercept := Some(0.0);
        }
      }
      locked := interceptLocked;
    }

    method ToggleInterceptLocked()
      modifies this
      ensures State() == Toggle(old(State()))
    {
      var _ := IsInterceptLocked(Some(!interceptLocked));
    }

    /** Marks slope and intercept out of date. */
    method SetComputingNeeded()
      modifies this
      ensures State() == old(State()).(needsComputing := true)
      ensures ComputingNeeded(State()) == isVisible
    {
      needsComputing := true;
    }

    /** A recompute is due exactly when one is pending and the line is visible. */
    predicate IsComputingNeeded()
      reads this
    {
      ComputingNeeded(State())
    }

    /** `recomputeSlopeAndInterceptIfNeeded`: the recompute step runs exactly
        when `IsComputingNeeded()` holds, and then the state is whatever that
        step leaves, `after`, supplied by the caller.  Otherwise nothing changes. */
    method RecomputeSlopeAndInterceptIfNeeded(after: LineState) returns (recomputed: bool)
      modifies this
      ensures recomputed == old(IsComputingNeeded())
      ensures recomputed ==> old(needsComputing) && old(isVisible)
      ensures State() == if recomputed then after.(isVisible := old(isVisible)) else old(State())
    {
      recomputed := IsComputingNeeded();
      if recomputed {
        RecomputeSlopeAndIntercept(after);
      }
    }

    /** Stand-in for the recomputation from the axes, which is not modelled:
        any outcome is possible for this class's own fields, and the caller says
        which; the superclass's `isVisible` is left alone. */
    method RecomputeSlopeAndIntercept(after: LineState)
      modifies this
      ensures State() == after.(isVisible := old(isVisible))
    {
      slope, intercept, isVertical, xIntercept := after.slope, after.intercept, after.isVertical, after.xIntercept;
      interceptLocked, needsComputing := after.interceptLocked, after.needsComputing;
    }

    /** `createStorage`, for the property this class adds: restoring it into
        any model gives that model this model's lock, and restoring it into this
        model changes nothing while a locked intercept is at the origin. */
    function CreateStorage(): (st: LineStorage)
      reads this
      ensures forall into: LineState :: SetLock(into, st.isInterceptLocked).interceptLocked == interceptLocked
      ensures LockedAtOrigin(State()) ==> SetLock(State(), st.isInterceptLocked) == State()
    {
      Storage(State())
    }

    /** `restoreStorage`: sets `isInterceptLocked` from the stored object. */
    method RestoreStorage(st: LineStorage)
      modifies this
      ensures State() == SetLock(old(State()), st.isInterceptLocked)
    {
      var _ := IsInterceptLocked(st.isInterceptLocked);
    }
  }
}
