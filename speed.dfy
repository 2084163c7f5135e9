/**
 * The speed controller of content.js: setSpeed, the saved-speed
 * initialisation and the slider's input handler. Speeds are integer
 * hundredths (1.5x is 150); the slider (min 0.1, max 4, step 0.05) only
 * ever holds multiples of 5 between 10 and 400, where toFixed(2) and
 * Number-to-string conversion are exact.
 */
module Speed {
  import opened Wrappers
  import opened Decimal
  import opened Media

  /** The localStorage key the speed is kept under. */
  const StorageKey: string := "bilibili-speed"

  /** Values the slider can hold: 0.10 ..= 4.00 in steps of 0.05. */
  predicate OnSliderGrid(v: int) {
    10 <= v <= 400 && v % 5 == 0
  }

  function Clamp(v: nat): (c: nat)
    ensures 10 <= c <= 400
    ensures 10 <= v <= 400 ==> c == v
  {
    if v < 10 then 10 else if v > 400 then 400 else v
  }

  function Distance(x: int, y: int): nat {
    if x <= y then y - x else x - y
  }

  /**
   * What the browser stores when `slider.value` is assigned v: clamped to
   * [min, max], then moved to the nearest step.
   */
  function Sanitize(v: nat): (r: nat)
    ensures OnSliderGrid(r)
    ensures OnSliderGrid(v) ==> r == v
    ensures forall g :: OnSliderGrid(g) ==> Distance(r, Clamp(v)) <= Distance(g, Clamp(v))
  {
    var c := Clamp(v);
    var k := c % 5;
    var r := if k <= 2 then c - k else c - k + 5;
    assert forall g :: OnSliderGrid(g) ==> Distance(r, c) <= Distance(g, c) by {
      forall g | OnSliderGrid(g) ensures Distance(r, c) <= Distance(g, c) {
        NearestStep(c, g);
      }
    }
    r
  }

  lemma NearestStep(c: int, g: int)
    requires 10 <= c <= 400 && OnSliderGrid(g)
    ensures var k := c % 5;
      var r := if k <= 2 then c - k else c - k + 5;
      Distance(r, c) <= Distance(g, c)
  {
  }

  /** `parseFloat(localStorage.getItem(...)) || 1`: missing, NaN and 0 all give 1.00. */
  function SavedSpeed(parsed: Option<nat>): (r: nat)
    ensures r != 0
    ensures parsed.Some? && parsed.value != 0 ==> r == parsed.value
    ensures parsed.None? || parsed.value == 0 ==> r == 100
  {
    if parsed.Some? && parsed.value != 0 then parsed.value else 100
  }

  /** `(v / 100).toFixed(2)`: the integer part, a point and exactly two decimals. */
  function Fixed2(v: nat): string {
    Show(v / 100) + "." + [DigitChar(v % 100 / 10), DigitChar(v % 10)]
  }

  /** The readout next to the slider. */
  function Label(v: nat): string {
    Fixed2(v) + "x"
  }

  /** Reads a readout back: digits, a point, two digits, "x". */
  function ParseLabel(s: string): Option<nat> {
    if |s| >= 5 && s[|s| - 1] == 'x' && s[|s| - 4] == '.' &&
       IsDigit(s[|s| - 3]) && IsDigit(s[|s| - 2]) then
      match Parse(s[..|s| - 4])
      case None => None
      case Some(n) => Some(100 * n + 10 * DigitValue(s[|s| - 3]) + DigitValue(s[|s| - 2]))
    else None
  }

  lemma DigitsOfHundredths(v: nat)
    ensures v == 100 * (v / 100) + 10 * (v % 100 / 10) + v % 10
  {
  }

  /** The readout shows the speed exactly: reading it back gives v. */
  lemma LabelRoundTrip(v: nat)
    ensures ParseLabel(Label(v)) == Some(v)
  {
    var s := Label(v);
    assert s[..|s| - 4] == Show(v / 100);
    ParseShow(v / 100);
    DigitsOfHundredths(v);
  }

  /** The digits after the point in `String(v / 100)`: none, one or two. */
  function Fraction(c: nat): string
    requires c < 100
  {
    if c == 0 then ""
    else if c % 10 == 0 then "." + [DigitChar(c / 10)]
    else "." + [DigitChar(c / 10), DigitChar(c % 10)]
  }

  /** What `localStorage.setItem(key, speed)` writes: JavaScript's String(v / 100). */
  function StoredString(v: nat): string {
    Show(v / 100) + Fraction(v % 100)
  }

  /** parseFloat on the strings StoredString writes (and on plain numerals). */
  function ParseStored(s: string): Option<nat> {
    if |s| >= 4 && s[|s| - 3] == '.' && IsDigit(s[|s| - 2]) && IsDigit(s[|s| - 1]) then
      match Parse(s[..|s| - 3])
      case None => None
      case Some(n) => Some(100 * n + 10 * DigitValue(s[|s| - 2]) + DigitValue(s[|s| - 1]))
    else if |s| >= 3 && s[|s| - 2] == '.' && IsDigit(s[|s| - 1]) then
      match Parse(s[..|s| - 2])
      case None => None
      case Some(n) => Some(100 * n + 10 * DigitValue(s[|s| - 1]))
    else
      match Parse(s)
      case None => None
      case Some(n) => Some(100 * n)
  }

  /** What the slider stores is read back as the same speed. */
  lemma StoredRoundTrip(v: nat)
    ensures ParseStored(StoredString(v)) == Some(v)
  {
    var s := StoredString(v);
    var n := v / 100;
    var c := v % 100;
    ParseShow(n);
    DigitsOfHundredths(v);
    if c == 0 {
      assert s == Show(n);
    } else if c % 10 == 0 {
      assert s[..|s| - 2] == Show(n);
    } else {
      assert s[..|s| - 3] == Show(n);
    }
  }

  /**
   * A speed chosen on the slider survives a reload: the next
   * initialisation reads it back, puts the slider on it and shows it.
   */
  lemma NextSessionRestores(v: nat)
    requires OnSliderGrid(v)
    ensures SavedSpeed(ParseStored(StoredString(v))) == v
    ensures Sanitize(SavedSpeed(ParseStored(StoredString(v)))) == v
  {
    StoredRoundTrip(v);
  }

  /** 1.5x reads "1.50x" and is stored as "1.5". */
  lemma ScenarioOneAndAHalf()
    ensures Label(150) == "1.50x"
    ensures StoredString(150) == "1.5"
  {
  }

  /**
   * After initialisation the slider agrees with the speed applied to the
   * video exactly when the saved speed lies on the slider's grid; a saved
   * 7 puts the slider at 4 while the video plays at 7.
   */
  lemma InitAgreesOnGrid(parsed: Option<nat>)
    ensures Sanitize(SavedSpeed(parsed)) == SavedSpeed(parsed) <==> OnSliderGrid(SavedSpeed(parsed))
    ensures SavedSpeed(Some(700)) == 700 && Sanitize(700) == 400
  {
  }

  /** The slider, its readout, localStorage and the video they drive. */
  class SpeedController {
    const video: Video?
    var sliderValue: nat
    var readout: string
    var storage: map<string, string>

    /** A panel as createPanel builds it: slider at 1, readout "1.00x". */
    constructor (video: Video?, storage: map<string, string>)
      ensures this.video == video && this.storage == storage
      ensures sliderValue == 100 && readout == Label(100)
    {
      this.video := video;
      this.storage := storage;
      sliderValue := 100;
      readout := Label(100);
    }

    /** setSpeed: the readout always, the video's rate only if there is a video. */
    method SetSpeed(v: nat)
      modifies this, video
      ensures readout == Label(v)
      ensures video != null ==> video.playbackRate == v
      ensures video != null ==> video.currentTime == old(video.currentTime) && video.paused == old(video.paused) && video.duration == old(video.duration)
      ensures sliderValue == old(sliderValue) && storage == old(storage)
    {
      if video != null {
        video.playbackRate := v;
      }
      readout := Label(v);
    }

    /** The speed part of init, given parseFloat of the stored string (None for NaN). */
    method Init(parsed: Option<nat>)
      modifies this, video
      ensures sliderValue == Sanitize(SavedSpeed(parsed))
      ensures readout == Label(SavedSpeed(parsed))
      ensures video != null ==> video.playbackRate == SavedSpeed(parsed)
      ensures video != null ==> video.currentTime == old(video.currentTime) && video.paused == old(video.paused) && video.duration == old(video.duration)
      ensures storage == old(storage)
    {
      var savedSpeed := SavedSpeed(parsed);
      sliderValue := Sanitize(savedSpeed);
      SetSpeed(savedSpeed);
    }

    /**
     * The user drags the slider to position v; the browser settles it on
     * the grid and the input handler applies and stores that value.
     */
    method SliderInput(v: nat)
      modifies this, video
      ensures sliderValue == Sanitize(v)
      ensures readout == Label(sliderValue)
      ensures video != null ==> video.playbackRate == sliderValue
      ensures video != null ==> video.currentTime == old(video.currentTime) && video.paused == old(video.paused) && video.duration == old(video.duration)
      ensures storage == old(storage)[StorageKey := StoredString(sliderValue)]
    {
      sliderValue := Sanitize(v);
      var speed := sliderValue;
      SetSpeed(speed);
      storage := storage[StorageKey := StoredString(speed)];
    }
  }
}
