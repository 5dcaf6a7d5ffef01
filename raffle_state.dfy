/**
 * The raffle page's state and the transitions its handlers and timers make,
 * as functions on values. A roll is three kinds of step: the button press
 * (`generateNumber`), which fixes the final number and starts a 50 ms
 * interval and a 3000 ms timeout; each interval callback, which shows a
 * throw-away number from the same range; and the timeout, which reveals the
 * committed number, appends it to the history, persists the history and
 * raises the confetti flag. Both timer callbacks work on the values the
 * press captured, held here in `pending`. `Math.random` is replaced by the
 * offset `k` of the drawn number from the lower bound.
 */
module RaffleState {
  import opened Optional
  import ConfigModal

  /** The range and confetti setting the page starts with when nothing is stored. */
  const DefaultMin: int := 1
  const DefaultMax: int := 199

  /** The stored `raffleConfig` object; `confetti` is missing in configurations saved before the field existed. */
  datatype StoredConfig = StoredConfig(min: int, max: int, confetti: Option<bool>)

  /** The two browser-storage keys the page uses; `None` is a key that is not set. */
  datatype Storage = Storage(previousRaffleNumbers: Option<seq<int>>, raffleConfig: Option<StoredConfig>)

  /** What `audio.play()` did for one tick. */
  datatype PlayOutcome = Played | PlayFailed(errorName: string)

  /**
   * What the interval and timeout callbacks of the running roll captured when
   * the button was pressed: the committed number, the range, the history, the
   * confetti setting, and whether the tick sound is attempted at all (the
   * captured `soundEnabled && audio`).
   */
  datatype Roll = Roll(finalNumber: int, min: int, max: int, history: seq<int>, confettiEnabled: bool, ticksAudible: bool)

  datatype Page = Page(
    number: Option<int>,
    isRolling: bool,
    previousNumbers: seq<int>,
    soundEnabled: bool,
    audioLoaded: bool,
    minNumber: int,
    maxNumber: int,
    showConfetti: bool,
    confettiEnabled: bool,
    pending: Option<Roll>,
    storage: Storage)

  /** A number drawn from `[min, max]`: the lower bound plus an offset no larger than the width of the range. */
  function Draw(min: int, max: int, k: nat): (r: int)
    requires k <= max - min
    ensures min <= r <= max
  {
    min + k
  }

  /** The stored history is the one in memory; a missing key stands for the empty history. */
  predicate HistoryPersisted(p: Page) {
    match p.storage.previousRaffleNumbers
    case None => p.previousNumbers == []
    case Some(h) => h == p.previousNumbers
  }

  /** The stored configuration is the one in memory; a missing key stands for the defaults. */
  predicate ConfigPersisted(p: Page) {
    match p.storage.raffleConfig
    case None => p.minNumber == DefaultMin && p.maxNumber == DefaultMax && p.confettiEnabled
    case Some(c) => p.minNumber == c.min && p.maxNumber == c.max && p.confettiEnabled == c.confetti.GetOr(true)
  }

  /** A roll is running exactly while its timers are pending; its number lies in its range and confetti stays down until it ends. */
  predicate RollConsistent(p: Page) {
    && (p.isRolling <==> p.pending.Some?)
    && (p.pending.Some? ==>
          var roll := p.pending.value;
          roll.min < roll.max && roll.min <= roll.finalNumber <= roll.max && !p.showConfetti)
  }

  predicate Inv(p: Page) {
    RollConsistent(p) && HistoryPersisted(p) && ConfigPersisted(p)
  }

  /**
   * The page after its first render and the mount effect: the stored history
   * if there is one, the stored range, and the stored confetti setting, which
   * defaults to on when the stored configuration lacks it.
   */
  function Load(saved: Storage): (p: Page)
    ensures Inv(p) && p.storage == saved
    ensures !p.isRolling && p.number.None? && !p.showConfetti && p.soundEnabled && !p.audioLoaded
    ensures saved.raffleConfig.Some? && saved.raffleConfig.value.confetti.None? ==> p.confettiEnabled
  {
    var history := if saved.previousRaffleNumbers.Some? then saved.previousRaffleNumbers.value else [];
    match saved.raffleConfig
    case None =>
      Page(None, false, history, true, false, DefaultMin, DefaultMax, false, true, None, saved)
    case Some(c) =>
      var confetti := if c.confetti.Some? then c.confetti.value else true;
      Page(None, false, history, true, false, c.min, c.max, false, confetti, None, saved)
  }

  /** The button may be pressed while a roll runs (it is ignored); otherwise the range must be proper and the offset inside it. */
  predicate CanGenerate(p: Page, k: nat) {
    p.isRolling || (p.minNumber < p.maxNumber && k <= p.maxNumber - p.minNumber)
  }

  /**
   * The button press. While a roll runs it changes nothing. Otherwise it
   * loads the audio if sound is on and none is loaded yet, lowers the
   * confetti flag, marks the page rolling and commits `minNumber + k`
   * together with what the timer callbacks capture; the history, the
   * display and storage are untouched.
   */
  function GenerateNumber(p: Page, k: nat): (r: Page)
    requires CanGenerate(p, k)
    ensures p.isRolling ==> r == p
    ensures !p.isRolling ==>
      && r.isRolling && !r.showConfetti && r.pending.Some?
      && r.pending.value.finalNumber == p.minNumber + k
      && p.minNumber <= r.pending.value.finalNumber <= p.maxNumber
      && r.pending.value.min == p.minNumber && r.pending.value.max == p.maxNumber
      && r.pending.value.history == p.previousNumbers
      && r.pending.value.confettiEnabled == p.confettiEnabled
      && r.pending.value.ticksAudible == (p.soundEnabled && p.audioLoaded)
      && r.audioLoaded == (p.audioLoaded || p.soundEnabled)
      && r.(audioLoaded := p.audioLoaded, showConfetti := p.showConfetti, isRolling := p.isRolling, pending := p.pending) == p
    ensures Inv(p) ==> Inv(r)
  {
    if p.isRolling then p
    else
      var roll := Roll(Draw(p.minNumber, p.maxNumber, k), p.minNumber, p.maxNumber,
                       p.previousNumbers, p.confettiEnabled, p.soundEnabled && p.audioLoaded);
      p.(audioLoaded := p.audioLoaded || p.soundEnabled, showConfetti := false, isRolling := true, pending := Some(roll))
  }

  /** An interval callback can fire only while its roll is pending, and draws from that roll's range. */
  predicate CanTick(p: Page, k: nat) {
    p.pending.Some? && k <= p.pending.value.max - p.pending.value.min
  }

  /**
   * One interval callback: it shows a number from the captured range and, if
   * the roll attempts sound, plays the tick; a `NotAllowedError` turns sound
   * off. Nothing else changes: the tick value reaches neither the history
   * nor storage, and the pending roll keeps its committed number.
   */
  function IntervalTick(p: Page, k: nat, play: PlayOutcome): (r: Page)
    requires CanTick(p, k)
    ensures r.number == Some(p.pending.value.min + k)
    ensures r.number.Some? && p.pending.value.min <= r.number.value <= p.pending.value.max
    ensures r.soundEnabled == (p.soundEnabled && !(p.pending.value.ticksAudible && play == PlayFailed("NotAllowedError")))
    ensures r.(number := p.number, soundEnabled := p.soundEnabled) == p
    ensures Inv(p) ==> Inv(r)
  {
    var roll := p.pending.value;
    var shown := p.(number := Some(Draw(roll.min, roll.max, k)));
    if roll.ticksAudible && play.PlayFailed? && play.errorName == "NotAllowedError" then
      shown.(soundEnabled := false)
    else
      shown
  }

  /**
   * The timeout. It shows the committed number, ends the roll, stores the
   * captured history with that number appended, in memory and in storage,
   * and raises the confetti flag when the captured setting asks for it.
   */
  function RollComplete(p: Page): (r: Page)
    requires p.pending.Some?
    ensures var roll := p.pending.value;
      && r.number == Some(roll.finalNumber)
      && !r.isRolling && r.pending.None?
      && r.previousNumbers == roll.history + [roll.finalNumber]
      && r.storage == p.storage.(previousRaffleNumbers := Some(r.previousNumbers))
      && (r.showConfetti <==> roll.confettiEnabled || p.showConfetti)
      && r.soundEnabled == p.soundEnabled && r.audioLoaded == p.audioLoaded
      && r.minNumber == p.minNumber && r.maxNumber == p.maxNumber && r.confettiEnabled == p.confettiEnabled
    ensures Inv(p) ==> Inv(r) && (r.showConfetti <==> p.pending.value.confettiEnabled)
  {
    var roll := p.pending.value;
    var updated := roll.history + [roll.finalNumber];
    p.(number := Some(roll.finalNumber), isRolling := false, pending := None,
       previousNumbers := updated,
       storage := p.storage.(previousRaffleNumbers := Some(updated)),
       showConfetti := roll.confettiEnabled || p.showConfetti)
  }

  /** The sound button flips `soundEnabled` and nothing else. */
  function ToggleSound(p: Page): (r: Page)
    ensures r.soundEnabled != p.soundEnabled
    ensures r.(soundEnabled := p.soundEnabled) == p
    ensures Inv(p) ==> Inv(r)
  {
    p.(soundEnabled := !p.soundEnabled)
  }

  /**
   * `saveConfig`: the three fields take exactly the given values and the
   * same triple is stored; a running roll keeps the range and setting it
   * captured.
   */
  function SaveConfig(p: Page, min: int, max: int, confetti: bool): (r: Page)
    ensures r.minNumber == min && r.maxNumber == max && r.confettiEnabled == confetti
    ensures r.storage == p.storage.(raffleConfig := Some(StoredConfig(min, max, Some(confetti))))
    ensures r.(minNumber := p.minNumber, maxNumber := p.maxNumber, confettiEnabled := p.confettiEnabled, storage := p.storage) == p
    ensures Inv(p) ==> Inv(r)
  {
    p.(minNumber := min, maxNumber := max, confettiEnabled := confetti,
       storage := p.storage.(raffleConfig := Some(StoredConfig(min, max, Some(confetti)))))
  }

  /** `resetNumbers`: the history is emptied and its storage key removed; a running roll keeps the history it captured. */
  function ResetNumbers(p: Page): (r: Page)
    ensures r.previousNumbers == [] && r.storage.previousRaffleNumbers.None?
    ensures r.(previousNumbers := p.previousNumbers, storage := p.storage) == p
    ensures r.storage.raffleConfig == p.storage.raffleConfig
    ensures Inv(p) ==> Inv(r)
  {
    p.(previousNumbers := [], storage := p.storage.(previousRaffleNumbers := None))
  }

  /** Reloading the page from what it stored gives back the history and the configuration it had. */
  lemma ReloadRestores(p: Page)
    requires Inv(p)
    ensures var q := Load(p.storage);
      q.previousNumbers == p.previousNumbers && q.minNumber == p.minNumber
      && q.maxNumber == p.maxNumber && q.confettiEnabled == p.confettiEnabled
  {
  }

  /** The last `n` entries of `h`, or all of them when there are fewer: JavaScript's `h.slice(-n)` for `n >= 1`. */
  function Last(h: seq<int>, n: nat): (r: seq<int>)
    ensures |r| == if |h| < n then |h| else n
    ensures forall i :: 0 <= i < |r| ==> r[i] == h[|h| - |r| + i]
  {
    h[|h| - (if |h| < n then |h| else n)..]
  }

  /** The "Anteriores" line: shown only for a non-empty history, listing its last five entries oldest first. */
  function PreviousStrip(h: seq<int>): (r: Option<seq<int>>)
    ensures r.None? <==> h == []
    ensures r.Some? ==> r.value == Last(h, 5) && 1 <= |r.value| <= 5
  {
    if |h| > 0 then Some(Last(h, 5)) else None
  }

  lemma {:induction false} LastOfAppend(h: seq<int>, x: int, n: nat)
    requires n >= 1
    ensures Last(h + [x], n) == Last(h, n - 1) + [x]
  {
    var start := |h| - (if |h| < n - 1 then |h| else n - 1);
    assert Last(h, n - 1) == h[start..];
    assert Last(h + [x], n) == (h + [x])[start..];
    assert (h + [x])[start..] == h[start..] + [x];
  }

  /** After a roll the strip ends with the revealed number, preceded by the last four numbers of the captured history. */
  lemma StripAfterRoll(p: Page)
    requires p.pending.Some?
    ensures var roll := p.pending.value;
      PreviousStrip(RollComplete(p).previousNumbers) == Some(Last(roll.history, 4) + [roll.finalNumber])
  {
    LastOfAppend(p.pending.value.history, p.pending.value.finalNumber, 5);
  }

  /** Everything that can happen to the page. */
  datatype Event =
    | Press(k: nat)
    | Tick(k: nat, play: PlayOutcome)
    | Timeout
    | SoundButton
    | ConfigSaved(min: int, max: int, confetti: bool)
    | NumbersReset

  /** Whether `e` can happen in `p`: timer callbacks only while their roll is pending. */
  predicate Enabled(p: Page, e: Event) {
    match e
    case Press(k) => CanGenerate(p, k)
    case Tick(k, _) => CanTick(p, k)
    case Timeout => p.pending.Some?
    case _ => true
  }

  function Step(p: Page, e: Event): Page
    requires Enabled(p, e)
  {
    match e
    case Press(k) => GenerateNumber(p, k)
    case Tick(k, play) => IntervalTick(p, k, play)
    case Timeout => RollComplete(p)
    case SoundButton => ToggleSound(p)
    case ConfigSaved(min, max, confetti) => SaveConfig(p, min, max, confetti)
    case NumbersReset => ResetNumbers(p)
  }

  /** Every event of `es`, in order, can happen in the state the ones before it leave. */
  predicate Admissible(p: Page, es: seq<Event>)
    decreases |es|
  {
    es == [] || (Enabled(p, es[0]) && Admissible(Step(p, es[0]), es[1..]))
  }

  function Run(p: Page, es: seq<Event>): Page
    requires Admissible(p, es)
    decreases |es|
  {
    if es == [] then p else Run(Step(p, es[0]), es[1..])
  }

  lemma {:induction false} RunAppend(p: Page, a: seq<Event>, b: seq<Event>)
    requires Admissible(p, a)
    ensures Admissible(p, a + b) <==> Admissible(Run(p, a), b)
    ensures Admissible(p, a + b) ==> Run(p, a + b) == Run(Run(p, a), b)
    decreases |a|
  {
    if a == [] {
      assert a + b == b;
    } else {
      assert (a + b)[0] == a[0];
      assert (a + b)[1..] == a[1..] + b;
      RunAppend(Step(p, a[0]), a[1..], b);
    }
  }

  /** Every reachable state keeps the invariant. */
  lemma {:induction false} RunPreservesInv(p: Page, es: seq<Event>)
    requires Inv(p) && Admissible(p, es)
    ensures Inv(Run(p, es))
    decreases |es|
  {
    if es != [] {
      RunPreservesInv(Step(p, es[0]), es[1..]);
    }
  }

  predicate NoTimeout(es: seq<Event>) {
    forall i :: 0 <= i < |es| ==> !es[i].Timeout?
  }

  /** Until its timeout fires, nothing alters the pending roll or raises the confetti flag. */
  lemma {:induction false} DuringRoll(q: Page, es: seq<Event>)
    requires Inv(q) && q.pending.Some? && NoTimeout(es) && Admissible(q, es)
    ensures Run(q, es).pending == q.pending && Run(q, es).showConfetti == q.showConfetti && Inv(Run(q, es))
    decreases |es|
  {
    if es != [] {
      assert !es[0].Timeout?;
      assert NoTimeout(es[1..]) by {
        forall i | 0 <= i < |es| - 1 ensures !es[1..][i].Timeout? {
          assert es[1..][i] == es[i + 1];
        }
      }
      DuringRoll(Step(q, es[0]), es[1..]);
    }
  }

  /**
   * Every tick of a roll shows a number from the range in force at the press,
   * whatever happened in between (other ticks, presses, sound toggles, saved
   * configurations, resets), and whether it tries to play the tick sound was
   * fixed at the press.
   */
  lemma TickInPressRange(p: Page, k: nat, during: seq<Event>, j: nat, play: PlayOutcome)
    requires Inv(p) && !p.isRolling && CanGenerate(p, k)
    requires NoTimeout(during) && Admissible(GenerateNumber(p, k), during)
    requires CanTick(Run(GenerateNumber(p, k), during), j)
    ensures var r := IntervalTick(Run(GenerateNumber(p, k), during), j, play);
      p.minNumber <= r.number.value <= p.maxNumber
    ensures Run(GenerateNumber(p, k), during).pending.value.ticksAudible == (p.soundEnabled && p.audioLoaded)
  {
    DuringRoll(GenerateNumber(p, k), during);
  }

  predicate NoPress(es: seq<Event>) {
    forall i :: 0 <= i < |es| ==> !es[i].Press?
  }

  /** Without a press no roll starts and no audio is loaded, whatever else happens. */
  lemma {:induction false} NoPressKeepsIdle(p: Page, es: seq<Event>)
    requires !p.audioLoaded && p.pending.None? && NoPress(es) && Admissible(p, es)
    ensures !Run(p, es).audioLoaded && Run(p, es).pending.None?
    decreases |es|
  {
    if es != [] {
      assert !es[0].Press?;
      assert NoPress(es[1..]) by {
        forall i | 0 <= i < |es| - 1 ensures !es[1..][i].Press? {
          assert es[1..][i] == es[i + 1];
        }
      }
      NoPressKeepsIdle(Step(p, es[0]), es[1..]);
    }
  }

  /**
   * The first roll after mounting never tries to play the tick sound, whatever
   * happened before its press: its callbacks captured `audio` before the
   * press loaded it. The press loads the audio exactly when sound is on.
   */
  lemma FirstRollSilent(saved: Storage, before: seq<Event>, k: nat)
    requires NoPress(before) && Admissible(Load(saved), before)
    requires CanGenerate(Run(Load(saved), before), k)
    ensures var q := Run(Load(saved), before);
      var r := GenerateNumber(q, k);
      r.pending.Some? && !r.pending.value.ticksAudible && r.audioLoaded == q.soundEnabled
  {
    NoPressKeepsIdle(Load(saved), before);
    RunPreservesInv(Load(saved), before);
  }

  /** Every configuration saved in `es` is one the settings dialog accepts. */
  predicate SavesValidated(es: seq<Event>) {
    forall i :: 0 <= i < |es| && es[i].ConfigSaved? ==> ConfigModal.Validate(es[i].min, es[i].max, es[i].confetti).Accepted?
  }

  /**
   * As the page is wired, `saveConfig` is only reached through the dialog,
   * which refuses `min >= max`; so a page that starts with a proper range
   * (the defaults, or a range the dialog stored) keeps one, and a press when
   * idle always meets `CanGenerate` for some offset.
   */
  lemma {:induction false} RangeStaysProper(p: Page, es: seq<Event>)
    requires p.minNumber < p.maxNumber && SavesValidated(es) && Admissible(p, es)
    ensures Run(p, es).minNumber < Run(p, es).maxNumber
    decreases |es|
  {
    if es != [] {
      assert SavesValidated(es[1..]) by {
        forall i | 0 <= i < |es| - 1 && es[1..][i].ConfigSaved?
          ensures ConfigModal.Validate(es[1..][i].min, es[1..][i].max, es[1..][i].confetti).Accepted?
        {
          assert es[1..][i] == es[i + 1];
        }
      }
      if es[0].ConfigSaved? {
        assert ConfigModal.Validate(es[0].min, es[0].max, es[0].confetti).Accepted?;
      }
      RangeStaysProper(Step(p, es[0]), es[1..]);
    }
  }

  /** The defaults are a proper range, so a freshly mounted page with nothing stored can always be rolled. */
  lemma FreshPageRollable(es: seq<Event>)
    requires SavesValidated(es) && Admissible(Load(Storage(None, None)), es)
    ensures var r := Run(Load(Storage(None, None)), es);
      r.minNumber < r.maxNumber && (!r.isRolling ==> CanGenerate(r, 0))
  {
    RangeStaysProper(Load(Storage(None, None)), es);
  }

  /**
   * The roll reveals what it committed. Press the button with offset `k` in
   * an idle page, let any events other than the timeout happen (ticks with
   * any values, further presses, sound toggles, saved configurations,
   * resets), then let the timeout fire: the page shows `minNumber + k`, the
   * number drawn before the first tick, and the history is the one at the
   * press with exactly that number appended, in memory and in storage.
   * Confetti is up exactly when it was enabled at the press.
   */
  lemma CommittedNumberRevealed(p: Page, k: nat, during: seq<Event>)
    requires Inv(p) && !p.isRolling && p.minNumber < p.maxNumber && k <= p.maxNumber - p.minNumber
    requires NoTimeout(during) && Admissible(GenerateNumber(p, k), during)
    ensures Admissible(p, [Press(k)] + during + [Timeout])
    ensures var r := Run(p, [Press(k)] + during + [Timeout]);
      && r.number == Some(p.minNumber + k)
      && p.minNumber <= p.minNumber + k <= p.maxNumber
      && r.previousNumbers == p.previousNumbers + [p.minNumber + k]
      && r.storage.previousRaffleNumbers == Some(r.previousNumbers)
      && !r.isRolling
      && (r.showConfetti <==> p.confettiEnabled)
  {
    var q := GenerateNumber(p, k);
    var es := [Press(k)] + during + [Timeout];
    DuringRoll(q, during);
    var mid := Run(q, during);
    assert Admissible(mid, [Timeout]) && Run(mid, [Timeout]) == RollComplete(mid);
    RunAppend(q, during, [Timeout]);
    assert es[0] == Press(k) && es[1..] == during + [Timeout];
    assert Run(p, es) == RollComplete(mid);
  }
}
