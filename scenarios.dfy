/**
 * Callers of the campground request: each builds a fresh character,
 * client and request, runs it against a given reply and reports what
 * the caller can rely on from the request's contract alone.
 */
module CampgroundScenarios {
  import opened Text
  import opened Session
  import opened Campground

  /** Relaxing at full MP: refused before the round trip, costs nothing, cancels nothing. */
  method RelaxAtFullMP(mp: int, reply: Reply) returns (used: int, cancelled: bool, ghost trips: nat)
    ensures used == 0 && !cancelled && trips == 0
  {
    var character := new Character(mp, mp);
    var client := new Client(character);
    var request := new CampgroundRequest.WithAction(client, "relax");
    var completion := request.Run(reply);
    used := request.AdventuresUsed();
    cancelled := client.cancelled;
    trips := request.roundTrips;
  }

  /** A confirmed rest on a page with a kitchen link: one adventure, chef discovered. */
  method ConfirmedRest(currentMP: int, maximumMP: int, text: string)
    returns (used: int, chef: bool, cancelled: bool, notices: seq<Notice>)
    requires Occurs(text, ChefMarker) && Occurs(text, RestConfirmation)
    requires Occurs(text, CampsiteHeading)
    ensures used == 1 && chef && !cancelled && notices == []
  {
    var character := new Character(currentMP, maximumMP);
    var client := new Client(character);
    var request := new CampgroundRequest.WithAction(client, "rest");
    var completion := request.Run(Reply(200, text, false));
    used := request.AdventuresUsed();
    chef := character.chef;
    cancelled := client.cancelled;
    notices := client.notices;
  }

  /** A rest whose page has the campsite heading but lacks the sleep phrase: error, one notice, cancelled, no cost. */
  method UnconfirmedRest(currentMP: int, maximumMP: int, text: string)
    returns (used: int, cancelled: bool, notices: seq<Notice>)
    requires !Occurs(text, RestConfirmation) && Occurs(text, CampsiteHeading)
    ensures used == 0 && cancelled && notices == [Notice(ErrorState, RestFailure)]
  {
    var character := new Character(currentMP, maximumMP);
    var client := new Client(character);
    var request := new CampgroundRequest.WithAction(client, "rest");
    var completion := request.Run(Reply(200, text, false));
    used := request.AdventuresUsed();
    cancelled := client.cancelled;
    notices := client.notices;
  }

  /** Toast on a page with the campsite heading but nothing acquired: the sequence is cancelled, but no error and no notice. */
  method EmptyToast(currentMP: int, maximumMP: int, text: string)
    returns (used: int, isError: bool, cancelled: bool, notices: seq<Notice>)
    requires !Occurs(text, ToastConfirmation) && Occurs(text, CampsiteHeading)
    ensures used == 0 && !isError && cancelled && notices == []
  {
    var character := new Character(currentMP, maximumMP);
    var client := new Client(character);
    var request := new CampgroundRequest.WithAction(client, "toast");
    var completion := request.Run(Reply(200, text, false));
    used := request.AdventuresUsed();
    isError := request.isErrorState;
    cancelled := client.cancelled;
    notices := client.notices;
  }

  /**
   * A page without a marker clears the flag a previous page set: the
   * facility flags follow the latest page, they do not accumulate.
   */
  method LaterPageClearsChef(first: string, second: string) returns (before: bool, after: bool)
    requires Occurs(first, ChefMarker) && !Occurs(second, ChefMarker)
    ensures before && !after
  {
    var character := new Character(0, 10);
    var client := new Client(character);
    var look := new CampgroundRequest(client);
    var completion := look.Run(Reply(200, first, false));
    before := character.chef;
    var again := new CampgroundRequest(client);
    completion := again.Run(Reply(200, second, false));
    after := character.chef;
  }

  /**
   * A rest answered by a page without the campsite heading: `substring`
   * throws before the sleep probe, so the request is not in error and
   * still reports one adventure used, and nothing is cancelled.
   */
  method RestWithoutHeading(currentMP: int, maximumMP: int, text: string)
    returns (completion: Completion, used: int, cancelled: bool, processed: seq<string>)
    requires !Occurs(text, CampsiteHeading)
    ensures completion == ThrewIndexOutOfBounds && used == 1 && !cancelled && processed == []
  {
    var character := new Character(currentMP, maximumMP);
    var client := new Client(character);
    var request := new CampgroundRequest.WithAction(client, "rest");
    completion := request.Run(Reply(200, text, false));
    used := request.AdventuresUsed();
    cancelled := client.cancelled;
    processed := client.processed;
  }

  /**
   * A transport failure after a page that showed every facility: the
   * flags that page set stay set, and the client is left as it was.
   */
  method FailedTransport(first: string, action: string, code: int, text: string, transportError: bool)
    returns (chef: bool, bartender: bool, toaster: bool, arches: bool,
             cancelled: bool, noticesBefore: seq<Notice>, notices: seq<Notice>,
             processedBefore: seq<string>, processed: seq<string>)
    requires Occurs(first, ChefMarker) && Occurs(first, BartenderMarker)
    requires Occurs(first, ToasterMarker) && Occurs(first, ArchesMarker)
    requires transportError || code != 200
    ensures chef && bartender && toaster && arches
    ensures !cancelled && notices == noticesBefore && processed == processedBefore
  {
    var character := new Character(0, 10);
    var client := new Client(character);
    var look := new CampgroundRequest(client);
    var completion := look.Run(Reply(200, first, false));
    noticesBefore, processedBefore := client.notices, client.processed;
    var request := new CampgroundRequest.WithAction(client, action);
    completion := request.Run(Reply(code, text, transportError));
    chef, bartender := character.chef, character.bartender;
    toaster, arches := character.toaster, character.arches;
    cancelled := client.cancelled;
    notices := client.notices;
    processed := client.processed;
  }
}
