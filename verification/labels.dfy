/**
 * The texts the settings widgets hold for the monitor, the frame rate and
 * the death cooldown, as `load_from_config` writes them, and the values
 * `_collect_settings` reads back from them. `None` stands for the
 * `ValueError` or `IndexError` Python raises on a text it cannot read.
 */
module Labels {
  import opened Wrappers
  import opened Text
  import opened Geometry
  import opened ConfigStore

  /** `f"Display {monitor + 1}"`: monitors are numbered from 1 on screen and from 0 in the settings. */
  function MonitorLabel(monitor: int): string
  {
    "Display " + IntToString(monitor + 1)
  }

  /** `int(val.split()[-1]) - 1` */
  function ParseMonitor(shown: string): Option<int>
  {
    var tokens := Tokens(shown);
    if tokens == [] then None
    else match ParseInt(tokens[|tokens| - 1])
      case Some(n) => Some(n - 1)
      case None => None
  }

  /** A single word is one token. */
  lemma TokensOfWord(w: string)
    requires w != [] && NoSpace(w)
    ensures Tokens(w) == [w]
  {
    TokensCons(w, []);
    assert w + [] == w;
  }

  /** Two words with a space between them are two tokens. */
  lemma TokensOfTwoWords(a: string, b: string)
    requires a != [] && NoSpace(a) && b != [] && NoSpace(b)
    ensures Tokens(a + " " + b) == [a, b]
  {
    assert a + " " + b == a + (" " + b);
    TokensCons(a, " " + b);
    assert (" " + b)[1..] == b;
    TokensOfWord(b);
  }

  /** Every monitor index reads back from its label. */
  lemma MonitorRoundTrip(monitor: int)
    ensures ParseMonitor(MonitorLabel(monitor)) == Some(monitor)
  {
    var digits := IntToString(monitor + 1);
    assert NoSpace("Display");
    assert MonitorLabel(monitor) == "Display" + " " + digits;
    TokensOfTwoWords("Display", digits);
    IntRoundTrip(monitor + 1);
  }

  /** `str(fps)` */
  function FpsLabel(fps: int): string
  {
    IntToString(fps)
  }

  /** `int(val)`, which ignores surrounding whitespace. */
  function ParseFps(shown: string): Option<int>
  {
    ParseInt(Strip(shown))
  }

  /** Every frame rate reads back from its label. */
  lemma FpsRoundTrip(fps: int)
    ensures ParseFps(FpsLabel(fps)) == Some(fps)
  {
    StripNoSpace(IntToString(fps));
    IntRoundTrip(fps);
  }

  /** `f"{int(cooldown)} sec"`: the cooldown truncated toward zero. */
  function CooldownLabel(cooldown: real): string
  {
    IntToString(Trunc(cooldown)) + " sec"
  }

  /** `float(val.split()[0])` */
  function ParseCooldown(shown: string): Option<real>
  {
    var tokens := Tokens(shown);
    if tokens == [] then None else ParseReal(tokens[0])
  }

  /** A cooldown reads back from its label truncated to whole seconds, so a whole number of seconds reads back unchanged. */
  lemma CooldownRoundTrip(cooldown: real)
    ensures ParseCooldown(CooldownLabel(cooldown)) == Some(Trunc(cooldown) as real)
    ensures cooldown == cooldown.Floor as real ==> ParseCooldown(CooldownLabel(cooldown)) == Some(cooldown)
  {
    var digits := IntToString(Trunc(cooldown));
    assert NoSpace("sec");
    assert CooldownLabel(cooldown) == digits + " " + "sec";
    TokensOfTwoWords(digits, "sec");
    RealOfIntText(Trunc(cooldown));
    TruncOfInt(cooldown.Floor);
  }

  // ----- widget values -----

  /** The integer value of an `int` (or `bool`) setting; `None` for anything else. */
  function IntOf(setting: Value): Option<int>
  {
    match setting
    case Int(i) => Some(i)
    case Bool(b) => Some(if b then 1 else 0)
    case _ => None
  }

  /** The monitor widget's text for the monitor setting. */
  function MonitorText(setting: Value): Option<Value>
  {
    match IntOf(setting)
    case Some(m) => Some(Str(MonitorLabel(m)))
    case None => None
  }

  /** The monitor setting read from the monitor widget's text. */
  function MonitorSetting(widget: Value): Option<Value>
  {
    if widget.Str? then
      match ParseMonitor(widget.s)
      case Some(m) => Some(Int(m))
      case None => None
    else None
  }

  /** The cooldown widget's text for the cooldown setting. */
  function CooldownText(setting: Value): Option<Value>
  {
    match Num(setting)
    case Some(c) => Some(Str(CooldownLabel(c)))
    case None => None
  }

  /** The cooldown setting read from the cooldown widget's text. */
  function CooldownSetting(widget: Value): Option<Value>
  {
    if widget.Str? then
      match ParseCooldown(widget.s)
      case Some(c) => Some(Real(c))
      case None => None
    else None
  }

  /** A monitor setting shown in its widget reads back as the same monitor. */
  lemma MonitorWidgetRoundTrip(setting: Value)
    requires IntOf(setting).Some?
    ensures MonitorText(setting).Some?
    ensures MonitorSetting(MonitorText(setting).value) == Some(Int(IntOf(setting).value))
  {
    MonitorRoundTrip(IntOf(setting).value);
  }

  /** A cooldown setting shown in its widget reads back truncated to whole seconds, and unchanged when whole. */
  lemma CooldownWidgetRoundTrip(setting: Value)
    requires Num(setting).Some?
    ensures CooldownText(setting).Some?
    ensures CooldownSetting(CooldownText(setting).value) == Some(Real(Trunc(Num(setting).value) as real))
    ensures var c := Num(setting).value; c == c.Floor as real ==> CooldownSetting(CooldownText(setting).value) == Some(Real(c))
  {
    CooldownRoundTrip(Num(setting).value);
  }

  /** The frame-rate widget's text for an integer frame-rate setting. */
  function FpsText(setting: Value): Option<Value>
  {
    if setting.Int? then Some(Str(FpsLabel(setting.i))) else None
  }

  /** `int(value)` of the frame-rate widget: its text parsed, or an integer as it is. */
  function FpsSetting(widget: Value): Option<Value>
  {
    match widget
    case Str(s) =>
      (match ParseFps(s)
       case Some(n) => Some(Int(n))
       case None => None)
    case Int(i) => Some(Int(i))
    case _ => None
  }

  /** An integer frame rate shown in its widget reads back unchanged. */
  lemma FpsWidgetRoundTrip(setting: Value)
    requires setting.Int?
    ensures FpsText(setting).Some? && FpsSetting(FpsText(setting).value) == Some(setting)
  {
    FpsRoundTrip(setting.i);
  }
}
