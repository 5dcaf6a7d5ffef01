/**
 * The raffle page component (`Home`) as an object whose handlers and timer
 * callbacks update its state fields in place. Each method is proved to make
 * exactly the transition `RaffleState` defines for it, so the properties
 * proved there (the committed number is the one revealed and stored, the
 * stored copies match memory) hold of every run of the object.
 */
module RafflePage {
  import opened Optional
  import S = RaffleState

  class Home {
    var number: Option<int>
    var isRolling: bool
    var previousNumbers: seq<int>
    var soundEnabled: bool
    /** Whether the tick sound has been created and loaded (`audio` is not null). */
    var audioLoaded: bool
    var minNumber: int
    var maxNumber: int
    var showConfetti: bool
    var confettiEnabled: bool
    /** What the outstanding interval and timeout of the running roll captured; `None` when no timer is pending. */
    var pending: Option<S.Roll>
    /** The page's two browser-storage entries. */
    var storage: S.Storage

    function State(): S.Page
      reads this
    {
      S.Page(number, isRolling, previousNumbers, soundEnabled, audioLoaded,
             minNumber, maxNumber, showConfetti, confettiEnabled, pending, storage)
    }

    ghost predicate Valid()
      reads this
    {
      S.Inv(State())
    }

    /** The initial render's state, then the mount effect reading both storage keys. */
    constructor (saved: S.Storage)
      ensures Valid() && State() == S.Load(saved)
    {
      number := None;
      isRolling := false;
      previousNumbers := [];
      soundEnabled := true;
      audioLoaded := false;
      minNumber := S.DefaultMin;
      maxNumber := S.DefaultMax;
      showConfetti := false;
      confettiEnabled := true;
      pending := None;
      storage := saved;
      if saved.previousRaffleNumbers.Some? {
        previousNumbers := saved.previousRaffleNumbers.value;
      }
      if saved.raffleConfig.Some? {
        var c := saved.raffleConfig.value;
        minNumber := c.min;
        maxNumber := c.max;
        confettiEnabled := if c.confetti.Some? then c.confetti.value else true;
      }
    }

    /** `generateNumber`, with `k` the offset of the committed number from `minNumber`. */
    method GenerateNumber(k: nat)
      requires Valid() && S.CanGenerate(State(), k)
      modifies this
      ensures Valid() && State() == S.GenerateNumber(old(State()), k)
      ensures old(isRolling) ==> unchanged(this)
    {
      if isRolling {
        return;
      }
      // the callbacks see `audio` as it was when the button was pressed
      var ticksAudible := soundEnabled && audioLoaded;
      if soundEnabled && !audioLoaded {
        audioLoaded := true;
      }
      showConfetti := false;
      isRolling := true;
      var finalNumber := S.Draw(minNumber, maxNumber, k);
      pending := Some(S.Roll(finalNumber, minNumber, maxNumber, previousNumbers, confettiEnabled, ticksAudible));
    }

    /** One 50 ms interval callback of the running roll, drawing offset `k` and meeting `play` when it plays the tick. */
    method IntervalTick(k: nat, play: S.PlayOutcome)
      requires Valid() && S.CanTick(State(), k)
      modifies this
      ensures Valid() && State() == S.IntervalTick(old(State()), k, play)
    {
      var roll := pending.value;
      number := Some(S.Draw(roll.min, roll.max, k));
      if roll.ticksAudible {
        if play.PlayFailed? && play.errorName == "NotAllowedError" {
          soundEnabled := false;
        }
      }
    }

    /** The 3000 ms timeout of the running roll. */
    method RollComplete()
      requires Valid() && pending.Some?
      modifies this
      ensures Valid() && State() == S.RollComplete(old(State()))
      ensures number == Some(old(pending).value.finalNumber)
      ensures previousNumbers == old(pending).value.history + [old(pending).value.finalNumber]
    {
      var roll := pending.value;
      pending := None;
      number := Some(roll.finalNumber);
      isRolling := false;
      var updatedNumbers := roll.history + [roll.finalNumber];
      previousNumbers := updatedNumbers;
      storage := storage.(previousRaffleNumbers := Some(updatedNumbers));
      if roll.confettiEnabled {
        showConfetti := true;
      }
    }

    method ToggleSound()
      requires Valid()
      modifies this
      ensures Valid() && State() == S.ToggleSound(old(State()))
    {
      soundEnabled := !soundEnabled;
    }

    method SaveConfig(min: int, max: int, confetti: bool)
      requires Valid()
      modifies this
      ensures Valid() && State() == S.SaveConfig(old(State()), min, max, confetti)
    {
      minNumber := min;
      maxNumber := max;
      confettiEnabled := confetti;
      storage := storage.(raffleConfig := Some(S.StoredConfig(min, max, Some(confetti))));
    }

    method ResetNumbers()
      requires Valid()
      modifies this
      ensures Valid() && State() == S.ResetNumbers(old(State()))
    {
      previousNumbers := [];
      storage := storage.(previousRaffleNumbers := None);
    }
  }
}
