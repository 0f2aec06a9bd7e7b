/** The corner access key: three clicks on "E R A*" open a modal asking for a secret number
    and a phrase; the right pair closes the modal, clears the inputs and navigates to
    "/shadow". Each click below the threshold schedules a reset of the counter, modelled as
    an event the environment may deliver later. */
module ShadowKey {
  import opened TriggerClicks
  import Middleware

  const SECRET_NUMBER := "729104"
  const SECRET_PHRASE := "silent-monarch"
  const ACCESS_DENIED := "Access denied."
  const SHADOW_PATH := "/shadow"

  /** The submitted pair is the secret one. */
  predicate SecretsMatch(number: string, phrase: string) {
    number == SECRET_NUMBER && phrase == SECRET_PHRASE
  }

  /** The key navigates to "/shadow" without writing the member cookie, so a visitor who does
      not already hold it is sent back to "/" by the middleware, on the same origin and query. */
  lemma NavigationWithoutCookieBounces(origin: string, search: string, cookies: map<string, string>)
    requires !Middleware.IsMember(cookies)
    ensures Middleware.Guard(Middleware.Url(origin, SHADOW_PATH, search), cookies) ==
              Middleware.Redirect(Middleware.Url(origin, "/", search))
    ensures Middleware.Handle(Middleware.Url(origin, SHADOW_PATH, search), cookies) ==
              Middleware.Redirect(Middleware.Url(origin, "/", search))
  {
    assert SHADOW_PATH[..|Middleware.GUARDED_PREFIX|] == Middleware.GUARDED_PREFIX;
  }

  /** The component's state; `pendingResets` counts the scheduled counter resets that have
      not fired yet and `navigatedTo` records the last navigation asked for ("" for none). */
  class Key {
    var clicks: nat
    var open: bool
    var number: string
    var phrase: string
    var error: string
    var pendingResets: nat
    var navigatedTo: string

    /** The click counter never reaches three between clicks. */
    predicate Valid()
      reads this
    {
      clicks < CLICKS_TO_OPEN
    }

    constructor ()
      ensures Valid() && clicks == 0 && !open
      ensures number == "" && phrase == "" && error == ""
      ensures pendingResets == 0 && navigatedTo == ""
    {
      clicks, open := 0, false;
      number, phrase, error := "", "", "";
      pendingResets, navigatedTo := 0, "";
    }

    /** `handleTriggerClick`: the third click opens the modal and puts the counter to 0; an
        earlier click sets the counter to `next` and schedules a reset. */
    method HandleTriggerClick()
      requires Valid()
      modifies this`clicks, this`open, this`pendingResets
      ensures clicks == Click(old(clicks)).count
      ensures open == (old(open) || Click(old(clicks)).opens)
      ensures Click(old(clicks)).opens <==> old(clicks) == CLICKS_TO_OPEN - 1
      ensures pendingResets == if Click(old(clicks)).opens then old(pendingResets) else old(pendingResets) + 1
      ensures Valid()
    {
      var next := clicks + 1;
      if next >= CLICKS_TO_OPEN {
        open := true;
        clicks := 0;
      } else {
        clicks := next;
        pendingResets := pendingResets + 1;
      }
    }

    /** A scheduled reset fires: the counter goes back to 0. */
    method ResetTimerFires()
      requires pendingResets > 0
      modifies this`clicks, this`pendingResets
      ensures clicks == 0 && pendingResets == old(pendingResets) - 1
      ensures Valid()
    {
      clicks := 0;
      pendingResets := pendingResets - 1;
    }

    /** `handleSubmit`: the right pair clears the error, closes the modal, empties both
        inputs and navigates to "/shadow" (no cookie is written); any other pair only sets
        "Access denied." and keeps the inputs. */
    method HandleSubmit()
      modifies this`error, this`open, this`number, this`phrase, this`navigatedTo
      ensures SecretsMatch(old(number), old(phrase)) ==>
                error == "" && !open && number == "" && phrase == "" && navigatedTo == SHADOW_PATH
      ensures !SecretsMatch(old(number), old(phrase)) ==>
                error == ACCESS_DENIED && open == old(open) && number == old(number) && phrase == old(phrase) &&
                navigatedTo == old(navigatedTo)
    {
      if number == SECRET_NUMBER && phrase == SECRET_PHRASE {
        error := "";
        open := false;
        number := "";
        phrase := "";
        navigatedTo := SHADOW_PATH;
      } else {
        error := ACCESS_DENIED;
      }
    }

    /** A click on the backdrop or on Cancel: the modal closes. A click inside the dialog
        does not reach the backdrop. */
    method Close()
      modifies this`open
      ensures !open
    {
      open := false;
    }

    /** The number input's `onChange`. */
    method TypeNumber(value: string)
      modifies this`number
      ensures number == value
    {
      number := value;
    }

    /** The phrase input's `onChange`. */
    method TypePhrase(value: string)
      modifies this`phrase
      ensures phrase == value
    {
      phrase := value;
    }
  }
}
