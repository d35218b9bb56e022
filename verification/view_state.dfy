/**
 * The client's view state (`useBusinessData`): the last business data, the
 * loading flag, the last error and the regenerating flag. Each asynchronous
 * operation is split into the step taken when it starts and the step taken
 * when its request settles; the request itself is a parameter of the second
 * step. One step happens at a time.
 */
module ViewState {
  import opened Wrappers
  import opened Payloads

  datatype State = State(data: Option<BusinessData>, loading: bool, error: Option<string>, regenerating: bool)

  /** The state when the page loads. */
  const Initial: State := State(None, false, None, false)

  /** A value caught by a `catch` clause: an `Error` with its message, or anything else. */
  datatype Thrown = ErrorInstance(message: string) | NonError

  /** How a request settles: a parsed body from an ok response, a non-ok response, or a throw. */
  datatype Completion<T> = Delivered(body: T) | NotOk | Threw(thrown: Thrown)

  const FetchFailed: string := "Failed to fetch business data"
  const FetchFallback: string := "An error occurred"
  const RegenerateFailed: string := "Failed to regenerate headline"

  /** The message `catch` stores: the error's own message, else the fallback. */
  function CaughtMessage(t: Thrown, fallback: string): (m: string)
    ensures t.ErrorInstance? ==> m == t.message
    ensures t.NonError? ==> m == fallback
  {
    match t
    case ErrorInstance(m) => m
    case NonError => fallback
  }

  /** The error a failed completion leaves: a non-ok response throws `Error(notOk)`. */
  function FailureMessage<T>(c: Completion<T>, notOk: string, fallback: string): (m: string)
    requires !c.Delivered?
    ensures c.NotOk? ==> m == notOk
    ensures c.Threw? && c.thrown.NonError? ==> m == fallback
    ensures c.Threw? && c.thrown.ErrorInstance? ==> m == c.thrown.message
  {
    match c
    case NotOk => CaughtMessage(ErrorInstance(notOk), fallback)
    case Threw(t) => CaughtMessage(t, fallback)
  }

  /** `fetchBusinessData` up to its request: loading starts and the error is cleared. */
  function FetchStart(s: State): (r: State)
    ensures r.loading && r.error == None
    ensures r.data == s.data && r.regenerating == s.regenerating
  {
    s.(loading := true, error := None)
  }

  /** `fetchBusinessData` after its request settles. */
  function FetchEnd(s: State, c: Completion<BusinessData>): (r: State)
    ensures !r.loading
    ensures r.regenerating == s.regenerating
    ensures c.Delivered? ==> r.data == Some(c.body) && r.error == s.error
    ensures !c.Delivered? ==> r.data == s.data && r.error.Some?
    ensures c.NotOk? ==> r.error == Some(FetchFailed)
    ensures c.Threw? && c.thrown.ErrorInstance? ==> r.error == Some(c.thrown.message)
    ensures c.Threw? && c.thrown.NonError? ==> r.error == Some(FetchFallback)
  {
    match c
    case Delivered(d) => s.(data := Some(d), loading := false)
    case _ => s.(error := Some(FailureMessage(c, FetchFailed, FetchFallback)), loading := false)
  }

  /** `prev => prev ? { ...prev, headline } : null`: only the headline of present data changes. */
  function PatchHeadline(prev: Option<BusinessData>, headline: string): (r: Option<BusinessData>)
    ensures r.None? <==> prev.None?
    ensures r.Some? ==> r.value.headline == headline
    ensures r.Some? ==> r.value.rating == prev.value.rating && r.value.reviews == prev.value.reviews
    ensures r.Some? ==> r.value.lastUpdated == prev.value.lastUpdated
  {
    match prev
    case None => None
    case Some(d) => Some(d.(headline := headline))
  }

  /** Whether `regenerateHeadline` gets past its guard and sends a request. */
  predicate RegenerateProceeds(s: State) {
    s.data.Some?
  }

  /** `regenerateHeadline` up to its request; without data it returns at once. */
  function RegenerateStart(s: State): (r: State)
    ensures !RegenerateProceeds(s) ==> r == s
    ensures RegenerateProceeds(s) ==> r.regenerating && r.error == None
    ensures r.data == s.data && r.loading == s.loading
  {
    if !RegenerateProceeds(s) then s
    else s.(regenerating := true, error := None)
  }

  /** `regenerateHeadline` after its request settles; `generatedAt` is not kept. */
  function RegenerateEnd(s: State, c: Completion<HeadlineBody>): (r: State)
    ensures !r.regenerating
    ensures r.loading == s.loading
    ensures c.Delivered? ==> r.data == PatchHeadline(s.data, c.body.headline) && r.error == s.error
    ensures !c.Delivered? ==> r.data == s.data && r.error.Some?
    ensures c.NotOk? ==> r.error == Some(RegenerateFailed)
    ensures c.Threw? && c.thrown.ErrorInstance? ==> r.error == Some(c.thrown.message)
    ensures c.Threw? && c.thrown.NonError? ==> r.error == Some(RegenerateFailed)
  {
    match c
    case Delivered(h) => s.(data := PatchHeadline(s.data, h.headline), regenerating := false)
    case _ => s.(error := Some(FailureMessage(c, RegenerateFailed, RegenerateFailed)), regenerating := false)
  }

  /** One step of the hook. */
  datatype Event =
    | FetchBegins
    | FetchSettles(fetched: Completion<BusinessData>)
    | RegenerateBegins
    | RegenerateSettles(regenerated: Completion<HeadlineBody>)

  /**
   * The buttons that start a fetch and a regenerate are disabled while
   * `loading` and `regeneratingHeadline` are set, so at most one request of
   * each kind is outstanding and a request can settle only while its flag
   * is up; a settle event at any other time cannot happen and is ignored.
   */
  function Step(s: State, e: Event): (r: State)
    ensures e.FetchSettles? && !s.loading ==> r == s
    ensures e.RegenerateSettles? && !s.regenerating ==> r == s
  {
    match e
    case FetchBegins => FetchStart(s)
    case FetchSettles(c) => if s.loading then FetchEnd(s, c) else s
    case RegenerateBegins => RegenerateStart(s)
    case RegenerateSettles(c) => if s.regenerating then RegenerateEnd(s, c) else s
  }

  /** The state after the events of `es`, in order. */
  function Run(s: State, es: seq<Event>): State
    decreases |es|
  {
    if |es| == 0 then s else Run(Step(s, es[0]), es[1..])
  }

  /** Regenerating only while there is data to patch. */
  predicate Inv(s: State) {
    s.regenerating ==> s.data.Some?
  }

  lemma StepKeepsInv(s: State, e: Event)
    requires Inv(s)
    ensures Inv(Step(s, e))
    ensures s.data.Some? ==> Step(s, e).data.Some?
  {
  }

  /**
   * From the initial state, every run keeps the invariant, and data once
   * shown never disappears again.
   */
  lemma {:induction false} RunKeepsInv(s: State, es: seq<Event>)
    requires Inv(s)
    ensures Inv(Run(s, es))
    ensures s.data.Some? ==> Run(s, es).data.Some?
    decreases |es|
  {
    if |es| > 0 {
      StepKeepsInv(s, es[0]);
      RunKeepsInv(Step(s, es[0]), es[1..]);
    }
  }

  lemma InitialInv()
    ensures Inv(Initial)
    ensures forall es :: Inv(Run(Initial, es))
  {
    forall es ensures Inv(Run(Initial, es)) {
      RunKeepsInv(Initial, es);
    }
  }

  /**
   * A fetch followed by a regenerate: the data is the fetched data with the
   * new headline, the error is cleared and both flags are down.
   */
  lemma FetchThenRegenerate(d: BusinessData, h: HeadlineBody, s: State)
    ensures Run(s, [FetchBegins, FetchSettles(Delivered(d)), RegenerateBegins, RegenerateSettles(Delivered(h))])
         == State(Some(d.(headline := h.headline)), false, None, false)
  {
    var es := [FetchBegins, FetchSettles(Delivered(d)), RegenerateBegins, RegenerateSettles(Delivered(h))];
    var s1 := FetchStart(s);
    var s2 := FetchEnd(s1, Delivered(d));
    var s3 := RegenerateStart(s2);
    assert s1.loading && s3.regenerating;
    assert Run(s, es) == Run(s1, es[1..]);
    assert Run(s1, es[1..]) == Run(s2, es[2..]);
    assert Run(s2, es[2..]) == Run(s3, es[3..]);
    assert Run(s3, es[3..]) == RegenerateEnd(s3, Delivered(h));
  }
}
