/**
 * The collaborators a request talks to: the character record whose
 * capability flags are scraped, and the client that receives display
 * notifications, parsed results and the cancellation of a pending sequence.
 * Only their recorded effects are modelled.
 */
module Session {

  /** The display states a notification can carry (the request itself only emits ErrorState). */
  datatype DisplayState = EnabledState | DisabledState | ErrorState | NoChangeState

  /** One `updateDisplay(state, message)` call. */
  datatype Notice = Notice(state: DisplayState, message: string)

  /** The character data: magic points and the facilities discovered at the campground. */
  class Character {
    var currentMP: int
    var maximumMP: int
    var chef: bool
    var bartender: bool
    var toaster: bool
    var arches: bool

    constructor (currentMP: int, maximumMP: int)
      ensures this.currentMP == currentMP && this.maximumMP == maximumMP
      ensures !chef && !bartender && !toaster && !arches
    {
      this.currentMP := currentMP;
      this.maximumMP := maximumMP;
      chef, bartender, toaster, arches := false, false, false, false;
    }

    method SetChef(present: bool)
      modifies this`chef
      ensures chef == present
    {
      chef := present;
    }

    method SetBartender(present: bool)
      modifies this`bartender
      ensures bartender == present
    {
      bartender := present;
    }

    method SetToaster(present: bool)
      modifies this`toaster
      ensures toaster == present
    {
      toaster := present;
    }

    method SetArches(present: bool)
      modifies this`arches
      ensures arches == present
    {
      arches := present;
    }
  }

  /**
   * The session client: owns the character, a sticky cancellation flag,
   * the log of display notifications and the log of texts handed to
   * result processing.
   */
  class Client {
    const character: Character
    var cancelled: bool
    var notices: seq<Notice>
    var processed: seq<string>

    constructor (character: Character)
      ensures this.character == character
      ensures !cancelled && notices == [] && processed == []
    {
      this.character := character;
      cancelled := false;
      notices := [];
      processed := [];
    }

    /** Cancels the pending sequence; once set the flag stays set. */
    method CancelRequest()
      modifies this`cancelled
      ensures cancelled
    {
      cancelled := true;
    }

    /** Forwards a notification to the display; recorded in order. */
    method UpdateDisplay(state: DisplayState, message: string)
      modifies this`notices
      ensures notices == old(notices) + [Notice(state, message)]
    {
      notices := notices + [Notice(state, message)];
    }

    /**
     * Hands a response fragment to result processing; recorded in order.
     * Processing may apply the page's gains to the character's MP, which
     * is why MP is in its frame; what it applies is not modelled.
     */
    method ProcessResults(text: string)
      modifies this`processed, character`currentMP, character`maximumMP
      ensures processed == old(processed) + [text]
    {
      processed := processed + [text];
    }
  }
}
