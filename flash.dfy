/**
 * The Flash middleware: at the start of every request it pulls the values
 * the previous request flashed out of the session, exposes them through
 * `request.old` and the `old` and `flashMessages` view globals, and installs
 * the flash helpers of `FlashMethods` on the request.
 */
module Flash {
  import opened Js
  import opened Http
  import FlashMethods

  /** The helpers installed on the request: property name to the
      `FlashMethods` function stored under it; `withOut` is a second name
      for `without`. */
  const Helpers: map<string, string> := map[
    "old" := "old",
    "with" := "with",
    "withAll" := "withAll",
    "withOnly" := "withOnly",
    "without" := "without",
    "withOut" := "without",
    "andWith" := "andWith",
    "flash" := "flash"
  ]

  class Flash {
    const view: View

    constructor (view: View)
      ensures this.view == view
    {
      this.view := view;
    }

    /** `handle`: fresh flash state for this request; the values flashed by
        the previous request are taken out of the session (they are seen by
        this request only), `{}` when there are none. */
    method Handle(request: Request, session: Session) returns (outcome: Outcome)
      modifies request`putValues, request`getValues, request`helpers, view, session
      ensures outcome == Next
      ensures request.putValues == Undefined
      ensures request.getValues == Or(old(session.Get(FlashMethods.FlashKey)), EmptyObject)
      ensures Truthy(request.getValues)
      ensures session.store == old(session.store) - {FlashMethods.FlashKey}
      ensures request.helpers == Helpers
      ensures view.globals == old(view.globals)["old" := OldDelegate]["flashMessages" := Plain(request.getValues)]
    {
      request.putValues, request.getValues := Undefined, Undefined;
      var flashMessages := session.Pull(FlashMethods.FlashKey);
      request.getValues := Or(flashMessages, EmptyObject);
      request.helpers := Helpers;
      view.SetGlobal("old", OldDelegate);
      view.SetGlobal("flashMessages", Plain(request.getValues));
      outcome := Next;
    }
  }

  /** Three requests through the same session: the first flashes `values`,
      the second reads them back with `old`, and the third no longer sees
      them. */
  method FlashLastsOneRequest(values: Value, key: string, default: Value)
      returns (error: Option<HttpError>, second: Value, third: Value)
    ensures Truthy(values) ==> error == None && second == FlashMethods.OldOf(values, key, default)
    ensures !Truthy(values) ==> error == Some(FlashMethods.NothingToFlash)
    ensures third == if Nullish(default) then Null else default
  {
    var session := new Session(map[]);
    var view := new View();
    var flash := new Flash(view);

    var request1 := new Request("POST", map[], "", false, map[], Undefined, map[]);
    var _ := flash.Handle(request1, session);
    var _ := FlashMethods.With(request1, values);
    error := FlashMethods.Flash(request1, session);

    var request2 := new Request("GET", map[], "", false, map[], Undefined, map[]);
    var _ := flash.Handle(request2, session);
    second := FlashMethods.Old(request2, key, default);

    var request3 := new Request("GET", map[], "", false, map[], Undefined, map[]);
    var _ := flash.Handle(request3, session);
    third := FlashMethods.Old(request3, key, default);
    FlashMethods.OldOfNothing(key, default);
  }
}
