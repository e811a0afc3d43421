/**
  The footer's newsletter box: an email input and a button that, for a
  non-blank email, shows "Subscribed!" and empties the input until a
  three-second timer puts the label back. No address is recorded anywhere.
 */
module Footer {
  import opened Text

  /** The button's text. */
  function ButtonLabel(isSubscribed: bool): (text: string)
    ensures text == "Subscribed!" <==> isSubscribed
    ensures text == "Subscribe" <==> !isSubscribed
  {
    if isSubscribed then "Subscribed!" else "Subscribe"
  }

  class Newsletter {
    var email: string
    var isSubscribed: bool
    /** Timers started by a subscribe that have not fired yet. */
    var pendingResets: nat

    /** The label only shows "Subscribed!" while a timer is outstanding. */
    ghost predicate Valid()
      reads this
    {
      isSubscribed ==> pendingResets > 0
    }

    constructor ()
      ensures Valid()
      ensures email == "" && !isSubscribed && pendingResets == 0
    {
      email := "";
      isSubscribed := false;
      pendingResets := 0;
    }

    /** Typing in the input. */
    method SetEmail(value: string)
      requires Valid()
      modifies this
      ensures Valid()
      ensures email == value
      ensures isSubscribed == old(isSubscribed) && pendingResets == old(pendingResets)
    {
      email := value;
    }

    /** `handleSubscribe`: a blank email changes nothing; any other sets the
        flag, empties the input and starts the timer. */
    method Subscribe()
      requires Valid()
      modifies this
      ensures Valid()
      ensures IsBlank(old(email)) ==> email == old(email) && isSubscribed == old(isSubscribed)
                                       && pendingResets == old(pendingResets)
      ensures !IsBlank(old(email)) ==> email == "" && isSubscribed
                                        && pendingResets == old(pendingResets) + 1
    {
      if !IsBlank(email) {
        isSubscribed := true;
        email := "";
        pendingResets := pendingResets + 1;
      }
    }

    /** One timer fires: the label goes back, even when a later subscribe's
        timer is still running. */
    method ResetTimeout()
      requires Valid() && pendingResets > 0
      modifies this
      ensures Valid()
      ensures !isSubscribed && pendingResets == old(pendingResets) - 1
      ensures email == old(email)
    {
      isSubscribed := false;
      pendingResets := pendingResets - 1;
    }

    function Label(): string
      reads this
    {
      ButtonLabel(isSubscribed)
    }
  }

  /** Spaces alone do not subscribe; an address does, and since the input is
      then empty a second click does nothing; the timer restores the label. */
  method SubscribeScenario() returns (afterSpaces: string, afterEmail: string, inputAfter: string,
                                      afterSecondClick: string, afterTimer: string)
    ensures afterSpaces == "Subscribe" && afterEmail == "Subscribed!" && inputAfter == ""
    ensures afterSecondClick == "Subscribed!" && afterTimer == "Subscribe"
  {
    var box := new Newsletter();
    box.SetEmail("   ");
    box.Subscribe();
    afterSpaces := box.Label();
    box.SetEmail("fox@tomolearn.com");
    assert !IsBlank(box.email) by {
      assert !IsWhitespace(box.email[0]);
    }
    box.Subscribe();
    afterEmail := box.Label();
    inputAfter := box.email;
    box.Subscribe();
    afterSecondClick := box.Label();
    box.ResetTimeout();
    afterTimer := box.Label();
  }
}
