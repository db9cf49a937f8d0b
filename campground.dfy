/**
 * The campground request: one round trip to "campground.php" that rests,
 * relaxes, toasts or only looks, scrapes the character's facilities from
 * the page, checks that the action was confirmed and reports its cost in
 * adventures.
 */
module Campground {
  import opened Text
  import opened Session

  const CampgroundForm := "campground.php"

  // Facility markers scraped from every successful response.
  const ChefMarker := "cook.php"
  const BartenderMarker := "cocktail.php"
  const ToasterMarker := "action=toast"
  const ArchesMarker := "action=arches"

  /** Result processing is given the page up to this heading. */
  const CampsiteHeading := "Your Campsite"

  // Confirmation phrases the action probes look for.
  const RestConfirmation := "You sleep"
  const RelaxConfirmation := "You relax"
  const ToastConfirmation := "acquire"

  const RestFailure := "Could not rest."
  const RelaxFailure := "Could not relax."

  datatype FormField = FormField(name: string, value: string)

  /** What one transport round trip leaves behind. */
  datatype Reply = Reply(responseCode: int, responseText: string, isErrorState: bool)

  /** How `run` ends: normally, or by the exception `substring` throws. */
  datatype Completion = Returned | ThrewIndexOutOfBounds

  /** The gate that refuses a relax before any network call when MP is already full. */
  predicate GateRefuses(action: string, currentMP: int, maximumMP: int) {
    action == "relax" && currentMP == maximumMP
  }

  /** The reply carries a page worth parsing. */
  predicate Parsable(reply: Reply) {
    !reply.isErrorState && reply.responseCode == 200
  }

  /** The action's confirmation phrase is missing from the page (rest and relax only). */
  ghost predicate ConfirmationMissing(action: string, text: string) {
    || (action == "rest" && !Occurs(text, RestConfirmation))
    || (action == "relax" && !Occurs(text, RelaxConfirmation))
  }

  /** The notifications the probes emit: one error notice when rest or relax went unconfirmed. */
  ghost function FailureNotices(action: string, text: string): (ns: seq<Notice>) {
    if action == "rest" && !Occurs(text, RestConfirmation) then [Notice(ErrorState, RestFailure)]
    else if action == "relax" && !Occurs(text, RelaxConfirmation) then [Notice(ErrorState, RelaxFailure)]
    else []
  }

  /** The toast probe found nothing acquired. */
  ghost predicate ToastEmpty(action: string, text: string) {
    action == "toast" && !Occurs(text, ToastConfirmation)
  }

  /** The page is parsed through to the action probes (no exception on the way). */
  ghost predicate Probed(reply: Reply) {
    Parsable(reply) && Occurs(reply.responseText, CampsiteHeading)
  }

  class CampgroundRequest {
    const client: Client
    const formUrl: string
    const action: string
    var formFields: seq<FormField>
    var isErrorState: bool
    var responseCode: int
    var responseText: string
    /** Number of transport round trips made by this request. */
    ghost var roundTrips: nat

    /** A request that only looks at the campground. */
    constructor (client: Client)
      ensures this.client == client && formUrl == CampgroundForm
      ensures action == "" && formFields == []
      ensures !isErrorState && responseCode == 0 && responseText == "" && roundTrips == 0
    {
      this.client := client;
      formUrl := CampgroundForm;
      formFields := [];
      isErrorState := false;
      responseCode := 0;
      responseText := "";
      roundTrips := 0;
      action := "";
    }

    /** A request that performs `action` at the campground. */
    constructor WithAction(client: Client, action: string)
      ensures this.client == client && formUrl == CampgroundForm
      ensures this.action == action && formFields == [FormField("action", action)]
      ensures !isErrorState && responseCode == 0 && responseText == "" && roundTrips == 0
    {
      this.client := client;
      formUrl := CampgroundForm;
      formFields := [];
      isErrorState := false;
      responseCode := 0;
      responseText := "";
      roundTrips := 0;
      this.action := action;
      new;
      AddFormField("action", action);
    }

    method AddFormField(name: string, value: string)
      modifies this`formFields
      ensures formFields == old(formFields) + [FormField(name, value)]
    {
      formFields := formFields + [FormField(name, value)];
    }

    /** The inherited round trip: the reply's code, text and error flag become the request's. */
    method Transport(reply: Reply)
      modifies this`responseCode, this`responseText, this`isErrorState, this`roundTrips
      ensures responseCode == reply.responseCode && responseText == reply.responseText
      ensures isErrorState == reply.isErrorState
      ensures roundTrips == old(roundTrips) + 1
    {
      responseCode := reply.responseCode;
      responseText := reply.responseText;
      isErrorState := reply.isErrorState;
      roundTrips := roundTrips + 1;
    }

    /**
     * Runs the request against the transport reply `reply`, updating the
     * character and the client as the page dictates.
     */
    method Run(reply: Reply) returns (completion: Completion)
      modifies this`responseCode, this`responseText, this`isErrorState, this`roundTrips
      modifies client`cancelled, client`notices, client`processed
      modifies client.character`chef, client.character`bartender
      modifies client.character`toaster, client.character`arches
      modifies client.character`currentMP, client.character`maximumMP
      // The relax gate: refused, no round trip, nothing else touched.
      ensures GateRefuses(action, old(client.character.currentMP), old(client.character.maximumMP)) ==>
        && isErrorState && completion == Returned
        && roundTrips == old(roundTrips)
        && responseCode == old(responseCode) && responseText == old(responseText)
        && unchanged(client) && unchanged(client.character)
      // Otherwise exactly one round trip, whose code and text are kept.
      ensures !GateRefuses(action, old(client.character.currentMP), old(client.character.maximumMP)) ==>
        && roundTrips == old(roundTrips) + 1
        && responseCode == reply.responseCode && responseText == reply.responseText
      // Transport error or non-200: return at once, leaving character and client alone.
      ensures !GateRefuses(action, old(client.character.currentMP), old(client.character.maximumMP))
              && !Parsable(reply) ==>
        && isErrorState == reply.isErrorState && completion == Returned
        && unchanged(client) && unchanged(client.character)
      // A parsable page overwrites every facility flag with "its marker occurs".
      ensures !GateRefuses(action, old(client.character.currentMP), old(client.character.maximumMP))
              && Parsable(reply) ==>
        && (client.character.chef <==> Occurs(reply.responseText, ChefMarker))
        && (client.character.bartender <==> Occurs(reply.responseText, BartenderMarker))
        && (client.character.toaster <==> Occurs(reply.responseText, ToasterMarker))
        && (client.character.arches <==> Occurs(reply.responseText, ArchesMarker))
      // No campsite heading: substring throws after the scrape; no results, no probes.
      ensures !GateRefuses(action, old(client.character.currentMP), old(client.character.maximumMP))
              && Parsable(reply) && !Occurs(reply.responseText, CampsiteHeading) ==>
        && completion == ThrewIndexOutOfBounds && !isErrorState
        && unchanged(client)
        && client.character.currentMP == old(client.character.currentMP)
        && client.character.maximumMP == old(client.character.maximumMP)
      // Otherwise the page before the heading goes to result processing, then the probes run.
      ensures !GateRefuses(action, old(client.character.currentMP), old(client.character.maximumMP))
              && Probed(reply) ==>
        && completion == Returned
        && client.processed == old(client.processed) + [Before(reply.responseText, CampsiteHeading).value]
        && isErrorState == ConfirmationMissing(action, reply.responseText)
        && client.notices == old(client.notices) + FailureNotices(action, reply.responseText)
        && client.cancelled == (old(client.cancelled)
                                || ConfirmationMissing(action, reply.responseText)
                                || ToastEmpty(action, reply.responseText))
      // The request's error flag in one line, and hence its cost.
      ensures isErrorState == (
        || GateRefuses(action, old(client.character.currentMP), old(client.character.maximumMP))
        || reply.isErrorState
        || (Probed(reply) && ConfirmationMissing(action, reply.responseText)))
      ensures AdventuresUsed() == 1 <==> (
        && (action == "rest" || action == "relax")
        && !GateRefuses(action, old(client.character.currentMP), old(client.character.maximumMP))
        && !reply.isErrorState
        && !(Probed(reply) && ConfirmationMissing(action, reply.responseText)))
      // What run never does: clear a cancellation or forget a notice.
      ensures old(client.cancelled) ==> client.cancelled
      ensures old(client.notices) <= client.notices
      ensures formFields == old(formFields)
    {
      if action == "relax" && client.character.currentMP == client.character.maximumMP {
        isErrorState := true;
        return Returned;
      }

      Transport(reply);

      if isErrorState || responseCode != 200 {
        return Returned;
      }

      ScrapeFacilities();
      completion := ProcessAndProbe();
    }

    /** Sets each facility flag to whether its marker occurs in the page. */
    method ScrapeFacilities()
      modifies client.character`chef, client.character`bartender
      modifies client.character`toaster, client.character`arches
      ensures client.character.chef <==> Occurs(responseText, ChefMarker)
      ensures client.character.bartender <==> Occurs(responseText, BartenderMarker)
      ensures client.character.toaster <==> Occurs(responseText, ToasterMarker)
      ensures client.character.arches <==> Occurs(responseText, ArchesMarker)
    {
      var character := client.character;
      character.SetChef(Contains(responseText, ChefMarker));
      character.SetBartender(Contains(responseText, BartenderMarker));
      character.SetToaster(Contains(responseText, ToasterMarker));
      character.SetArches(Contains(responseText, ArchesMarker));
    }

    /**
     * Hands the page before the campsite heading to result processing
     * (throwing when the heading is missing), then runs the action probes.
     */
    method ProcessAndProbe() returns (completion: Completion)
      requires !isErrorState
      modifies this`isErrorState, client`cancelled, client`notices, client`processed
      modifies client.character`currentMP, client.character`maximumMP
      ensures !Occurs(responseText, CampsiteHeading) ==>
        && completion == ThrewIndexOutOfBounds && !isErrorState && unchanged(client)
        && client.character.currentMP == old(client.character.currentMP)
        && client.character.maximumMP == old(client.character.maximumMP)
      ensures Occurs(responseText, CampsiteHeading) ==>
        && completion == Returned
        && client.processed == old(client.processed) + [Before(responseText, CampsiteHeading).value]
        && isErrorState == ConfirmationMissing(action, responseText)
        && client.notices == old(client.notices) + FailureNotices(action, responseText)
        && client.cancelled == (old(client.cancelled)
                                || ConfirmationMissing(action, responseText)
                                || ToastEmpty(action, responseText))
    {
      var results := Before(responseText, CampsiteHeading);
      if results.None? {
        return ThrewIndexOutOfBounds;
      }
      client.ProcessResults(results.value);
      Probe();
      return Returned;
    }

    /** The rest, relax and toast probes on a page that was processed. */
    method Probe()
      requires !isErrorState
      modifies this`isErrorState, client`cancelled, client`notices
      ensures isErrorState == ConfirmationMissing(action, responseText)
      ensures client.notices == old(client.notices) + FailureNotices(action, responseText)
      ensures client.cancelled == (old(client.cancelled)
                                   || ConfirmationMissing(action, responseText)
                                   || ToastEmpty(action, responseText))
    {
      if action == "rest" {
        if !Contains(responseText, RestConfirmation) {
          isErrorState := true;
          client.UpdateDisplay(ErrorState, RestFailure);
          client.CancelRequest();
        }
      } else if action == "relax" {
        if !Contains(responseText, RelaxConfirmation) {
          isErrorState := true;
          client.UpdateDisplay(ErrorState, RelaxFailure);
          client.CancelRequest();
        }
      }

      if action == "toast" && !Contains(responseText, ToastConfirmation) {
        client.CancelRequest();
      }
    }

    /**
     * Adventures this request used: one for a rest or relax that did not
     * end in error, none for anything else.
     */
    function AdventuresUsed(): (n: int)
      reads this
      ensures n == 0 || n == 1
      ensures n == 1 <==> !isErrorState && (action == "rest" || action == "relax")
    {
      if isErrorState || (action != "rest" && action != "relax") then 0 else 1
    }
  }
}
