/** The "manage donations" screen (app/manage-donations.tsx): checking the email
    typed in, asking the `requestManagementLink` callable for a link, reading the
    token out of a development link, and the screen's `email` and `loading`
    state. The callable is outside the model; its outcome is a parameter. */
module ManageDonations {
  import opened Wrappers
  import opened JsText
  import opened Callable

  /** `!email.trim() || !email.includes('@')` rejects; this is the negation. */
  predicate EmailAccepted(email: string) {
    Trim(email) != "" && '@' in email
  }

  /** The emptiness test adds nothing to the '@' test, since '@' is not white
      space and survives trimming: an email is accepted exactly when it contains
      '@', so "@" alone passes and "  " does not. */
  lemma EmailAcceptedIffAt(email: string)
    ensures EmailAccepted(email) <==> '@' in email
  {
    if '@' in email {
      TrimKeeps(email, '@');
    }
  }

  /** The email sent for an accepted input contains '@' and has no white space at
      either end. */
  lemma SentEmailShape(email: string)
    requires EmailAccepted(email)
    ensures var sent := Trim(email);
      '@' in sent && !IsSpace(sent[0]) && !IsSpace(sent[|sent| - 1])
  {
    TrimKeeps(email, '@');
  }

  /** `devLink.split('/').pop()`. */
  function TokenId(devLink: string): string {
    LastPiece(devLink, '/')
  }

  /** The token is the text after the last '/': for a link made of any prefix, a
      '/' and a token without '/', it is that token. */
  lemma TokenIdAfterLastSlash(prefix: string, token: string)
    requires '/' !in token
    ensures TokenId(prefix + "/" + token) == token
  {
    var s := prefix + "/" + token;
    var t := TokenId(s);
    LastPieceIsTail(s, '/');
    assert s[|s| - |token| - 1] == '/';
    assert |t| == |token|;
    assert t == s[|s| - |token|..] == token;
  }

  /** The link shape the development backend sends. */
  lemma DevLinkToken(token: string)
    requires '/' !in token
    ensures TokenId("almadina://manage/" + token) == token
  {
    TokenIdAfterLastSlash("almadina://manage", token);
    assert "almadina://manage" + "/" + token == "almadina://manage/" + token;
  }

  /** `result.data`: a development link, or a message to show. */
  datatype LinkResponse = LinkResponse(devLink: Option<string>, message: Option<string>)

  /** The alert the screen shows. */
  datatype LinkAlert =
    | InvalidEmail
    | LinkGenerated(tokenId: string)
    | CheckYourEmail(emailText: Option<string>)
    | ErrorAlert(errorText: string)

  /** The screen's `email` and `loading` state. */
  class ManageDonationsScreen {
    var email: string
    var loading: bool

    constructor()
      ensures email == "" && !loading
    {
      email := "";
      loading := false;
    }

    /** The text field's change handler. */
    method SetEmail(text: string)
      modifies this
      ensures email == text && loading == old(loading)
    {
      email := text;
    }

    /** `handleRequestLink`: reject an invalid email without calling anything;
        otherwise send the trimmed email, show the link's token or the message,
        clear the field only on success, and stop loading on every path. */
    method RequestLink(call: CallOutcome<LinkResponse>) returns (sentEmail: Option<string>, alert: LinkAlert)
      modifies this
      ensures !EmailAccepted(old(email)) ==>
        sentEmail.None? && alert == InvalidEmail && email == old(email) && loading == old(loading)
      ensures EmailAccepted(old(email)) ==> sentEmail == Some(Trim(old(email))) && !loading
      ensures EmailAccepted(old(email)) && call.Returned? ==> email == ""
      ensures EmailAccepted(old(email)) && call.Returned? && Truthy(call.value.devLink) ==>
        alert == LinkGenerated(TokenId(call.value.devLink.value))
      ensures EmailAccepted(old(email)) && call.Returned? && !Truthy(call.value.devLink) ==>
        alert == CheckYourEmail(call.value.message)
      ensures EmailAccepted(old(email)) && call.Threw? ==>
        email == old(email) && alert == ErrorAlert(OrElse(call.error.message, "Failed to send link"))
    {
      if Trim(email) == "" || '@' !in email {
        return None, InvalidEmail;
      }
      loading := true;
      sentEmail := Some(Trim(email));
      match call {
        case Returned(data) =>
          if Truthy(data.devLink) {
            var tokenId := TokenId(data.devLink.value);
            alert := LinkGenerated(tokenId);
          } else {
            alert := CheckYourEmail(data.message);
          }
          email := "";
        case Threw(error) =>
          alert := ErrorAlert(OrElse(error.message, "Failed to send link"));
      }
      loading := false;
    }
  }

  /** A failed request keeps what was typed, so the same email is sent again and
      only the successful retry clears the field. */
  method FailedRequestKeepsEmail(typed: string, err: CallableError, data: LinkResponse)
    returns (first: Option<string>, second: Option<string>, remaining: string)
    requires '@' in typed
    ensures first == Some(Trim(typed)) && second == first
    ensures remaining == ""
  {
    var screen := new ManageDonationsScreen();
    screen.SetEmail(typed);
    EmailAcceptedIffAt(typed);
    var alert;
    first, alert := screen.RequestLink(Threw(err));
    second, alert := screen.RequestLink(Returned(data));
    remaining := screen.email;
  }
}
