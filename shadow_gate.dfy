/** The footer's access gate: three clicks on the struck-through "ERA" open a modal that
    asks for a secret number and a pass phrase; the right pair writes the member cookie,
    closes the modal and navigates to "/shadow". */
module ShadowGate {
  import opened Common
  import opened TriggerClicks
  import Middleware

  const SECRET_NUMBER := "729104"
  const SECRET_PHRASE := "silent-monarch"
  const ACCESS_DENIED := "ACCESS DENIED"
  const SHADOW_PATH := "/shadow"

  /** The submitted pair is the secret one. */
  predicate SecretsMatch(number: string, phrase: string) {
    number == SECRET_NUMBER && phrase == SECRET_PHRASE
  }

  /** The component's state, the browser's cookies and the last navigation it asked for. */
  class Gate {
    var clickCount: nat
    var open: bool
    var number: string
    var phrase: string
    var error: Option<string>
    var cookies: map<string, string>
    var navigatedTo: Option<string>

    /** The click counter never reaches three between clicks. */
    predicate Valid()
      reads this
    {
      clickCount < CLICKS_TO_OPEN
    }

    constructor (cookies: map<string, string>)
      ensures Valid() && clickCount == 0 && !open
      ensures number == "" && phrase == "" && error == None
      ensures this.cookies == cookies && navigatedTo == None
    {
      clickCount, open := 0, false;
      number, phrase, error := "", "", None;
      this.cookies, navigatedTo := cookies, None;
    }

    /** `handleTriggerClick`: the counter is set to `next`, and on the third click the modal
        opens and the counter goes back to 0. */
    method HandleTriggerClick()
      requires Valid()
      modifies this`clickCount, this`open
      ensures clickCount == Click(old(clickCount)).count
      ensures open == (old(open) || Click(old(clickCount)).opens)
      ensures Click(old(clickCount)).opens <==> old(clickCount) == CLICKS_TO_OPEN - 1
      ensures Valid()
    {
      var next := clickCount + 1;
      clickCount := next;
      if next >= CLICKS_TO_OPEN {
        open := true;
        clickCount := 0;
      }
    }

    /** `handleSubmit`: the right pair clears the error, writes `shadow_member=1`, closes the
        modal and navigates to "/shadow"; any other pair only sets "ACCESS DENIED". */
    method HandleSubmit()
      modifies this`error, this`cookies, this`open, this`navigatedTo
      ensures SecretsMatch(number, phrase) ==>
                error == None && cookies == old(cookies)[Middleware.MEMBER_COOKIE := Middleware.MEMBER_VALUE] &&
                !open && navigatedTo == Some(SHADOW_PATH)
      ensures !SecretsMatch(number, phrase) ==>
                error == Some(ACCESS_DENIED) && cookies == old(cookies) && open == old(open) &&
                navigatedTo == old(navigatedTo)
      ensures SecretsMatch(number, phrase) ==> Middleware.IsMember(cookies)
    {
      if number == SECRET_NUMBER && phrase == SECRET_PHRASE {
        error := None;
        cookies := cookies[Middleware.MEMBER_COOKIE := Middleware.MEMBER_VALUE];
        open := false;
        navigatedTo := Some(SHADOW_PATH);
      } else {
        error := Some(ACCESS_DENIED);
      }
    }

    /** The Cancel button: the modal closes and the inputs keep what was typed. */
    method Cancel()
      modifies this`open
      ensures !open
    {
      open := false;
    }

    /** The number input's `onChange`. */
    method TypeNumber(value: string)
      modifies this`number
      ensures number == value
    {
      number := value;
    }

    /** The phrase input's `onChange`. */
    method TypePhrase(value: string)
      modifies this`phrase
      ensures phrase == value
    {
      phrase := value;
    }
  }
}
