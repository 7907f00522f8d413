/**
 * Global hotkeys: combos such as "ctrl+shift+d" are stored as sets of
 * normalised key names, the keyboard listener keeps the set of keys held,
 * and a combo's callback is launched whenever the held set equals the combo
 * exactly. Callbacks are identified by a number and the launches recorded
 * in a log.
 */
module Hotkeys {
  import opened Wrappers
  import opened Text

  type Callback = nat

  // ----- combos -----

  /** One part of a combo: stripped, lower-cased, with "cmd" read as "ctrl". */
  function NormalizePart(k: string): string
  {
    ReplaceAll(Lower(Strip(k)), "cmd", "ctrl")
  }

  /** The normalised names of a list of parts. */
  function Names(parts: seq<string>): set<string>
  {
    set k | k in parts :: NormalizePart(k)
  }

  /** The key set of a combo string: its '+'-separated parts, normalised. */
  function Combo(keys: string): set<string>
  {
    Names(Split(keys, '+'))
  }

  /** A combo written as parts joined by '+' is the set of the normalised parts. */
  lemma ComboOfParts(parts: seq<string>)
    requires |parts| >= 1 && forall j :: 0 <= j < |parts| ==> '+' !in parts[j]
    ensures Combo(Join(parts, "+")) == Names(parts)
  {
    JoinSplit(parts, '+');
  }

  /** Case and surrounding whitespace do not matter to a part. */
  lemma NormalizePartIgnoresCaseAndSpace(s: string, t: string, a: string, b: string)
    requires Lower(s) == Lower(t) && AllSpace(a) && AllSpace(b)
    ensures NormalizePart(a + s + b) == NormalizePart(t)
  {
    StripPadded(a, s, b);
    StripLower(s);
    StripLower(t);
    LowerIdempotent(Strip(s));
    LowerIdempotent(Strip(t));
    assert Lower(Strip(s)) == Lower(Lower(Strip(s))) == Lower(Strip(Lower(s)));
  }

  /** "cmd" and "ctrl" name the same part. */
  lemma CmdIsCtrl()
    ensures NormalizePart("cmd") == NormalizePart("ctrl") == "ctrl"
  {
    CmdPart();
    CtrlPart();
  }

  /** "cmd" is stripped and lower-cased to itself, then replaced by "ctrl". */
  lemma CmdPart()
    ensures NormalizePart("cmd") == "ctrl"
  {
    StripNoSpace("cmd");
    assert Lower("cmd") == "cmd";
    assert ReplaceAll("cmd", "cmd", "ctrl") == "ctrl" + ReplaceAll("", "cmd", "ctrl");
  }

  /** "ctrl" is stripped and lower-cased to itself and holds no "cmd". */
  lemma CtrlPart()
    ensures NormalizePart("ctrl") == "ctrl"
  {
    StripNoSpace("ctrl");
    assert Lower("ctrl") == "ctrl";
    assert ReplaceAll("rl", "cmd", "ctrl") == "rl";
    assert ReplaceAll("trl", "cmd", "ctrl") == "t" + ReplaceAll("rl", "cmd", "ctrl");
    assert ReplaceAll("ctrl", "cmd", "ctrl") == "c" + ReplaceAll("trl", "cmd", "ctrl");
  }

  /**
   * Two combos whose parts normalise to the same names denote the same key
   * set, whatever the order, case or spacing of the parts.
   */
  lemma SameCombo(p: seq<string>, q: seq<string>)
    requires |p| >= 1 && forall j :: 0 <= j < |p| ==> '+' !in p[j]
    requires |q| >= 1 && forall j :: 0 <= j < |q| ==> '+' !in q[j]
    requires forall x :: x in p ==> exists y :: y in q && NormalizePart(y) == NormalizePart(x)
    requires forall y :: y in q ==> exists x :: x in p && NormalizePart(x) == NormalizePart(y)
    ensures Combo(Join(p, "+")) == Combo(Join(q, "+"))
  {
    ComboOfParts(p);
    ComboOfParts(q);
  }

  /** Swapping a part for one that normalises alike leaves the names unchanged. */
  lemma SwapNames(x: string, y: string, rest: seq<string>)
    requires NormalizePart(x) == NormalizePart(y)
    ensures Names([x] + rest) == Names([y] + rest)
  {
    var p, q := [x] + rest, [y] + rest;
    forall n | n in Names(p)
      ensures n in Names(q)
    {
      var k :| k in p && NormalizePart(k) == n;
      if k == x {
        assert y in q;
      } else {
        assert k in q;
      }
    }
    forall n | n in Names(q)
      ensures n in Names(p)
    {
      var k :| k in q && NormalizePart(k) == n;
      if k == y {
        assert x in p;
      } else {
        assert k in p;
      }
    }
  }

  /** A '+'-free part in front of '+'-free parts. */
  lemma PlusFreeCons(x: string, rest: seq<string>)
    requires '+' !in x && forall j :: 0 <= j < |rest| ==> '+' !in rest[j]
    ensures forall j :: 0 <= j < |[x] + rest| ==> '+' !in ([x] + rest)[j]
  {
    forall j | 0 <= j < |[x] + rest|
      ensures '+' !in ([x] + rest)[j]
    {
      if j > 0 {
        assert ([x] + rest)[j] == rest[j - 1];
      }
    }
  }

  /** Swapping the first part of a combo for one that normalises alike leaves the combo unchanged. */
  lemma SwapPart(x: string, y: string, rest: seq<string>)
    requires NormalizePart(x) == NormalizePart(y) && '+' !in x && '+' !in y
    requires forall j :: 0 <= j < |rest| ==> '+' !in rest[j]
    ensures Combo(Join([x] + rest, "+")) == Combo(Join([y] + rest, "+"))
  {
    PlusFreeCons(x, rest);
    PlusFreeCons(y, rest);
    ComboOfParts([x] + rest);
    ComboOfParts([y] + rest);
    SwapNames(x, y, rest);
  }

  /** A combo whose first part is "cmd" equals the one with "ctrl" there, for any further parts ("cmd+shift+d" and "ctrl+shift+d"). */
  lemma CmdComboIsCtrlCombo(cmd: string, ctrl: string, rest: seq<string>)
    requires cmd == "cmd" && ctrl == "ctrl"
    requires forall j :: 0 <= j < |rest| ==> '+' !in rest[j]
    ensures Combo(Join([cmd] + rest, "+")) == Combo(Join([ctrl] + rest, "+"))
  {
    CmdIsCtrl();
    ModifiersPlusFree();
    SwapPart(cmd, ctrl, rest);
  }

  /** Neither modifier name holds the combo separator. */
  lemma ModifiersPlusFree()
    ensures '+' !in "cmd" && '+' !in "ctrl"
  {
    assert forall i :: 0 <= i < |"cmd"| ==> "cmd"[i] != '+';
    assert forall i :: 0 <= i < |"ctrl"| ==> "ctrl"[i] != '+';
  }

  // ----- keys -----

  /** A key event: a named special key (`Key.ctrl_l`, `Key.f9`) or a character key, whose character may be missing. */
  datatype Key = Special(name: string) | Char(character: Option<string>)

  /** The special keys with a fixed name: both sides of a modifier read as the modifier. */
  function SpecialName(name: string): Option<string>
  {
    if name in {"ctrl_l", "ctrl_r", "cmd", "cmd_l", "cmd_r"} then Some("ctrl")
    else if name in {"shift_l", "shift_r"} then Some("shift")
    else if name in {"alt_l", "alt_r", "alt_gr"} then Some("alt")
    else if name in {"space", "enter", "esc", "tab", "backspace"} then Some(name)
    else None
  }

  /** `_normalize_key`: the fixed name, else the lower-cased character, else the lower-cased key name. */
  function NormalizeKey(key: Key): (r: Option<string>)
    ensures r.Some? ==> r.value != ""
  {
    match key
    case Special(name) =>
      if SpecialName(name).Some? then SpecialName(name)
      else if name != "" then Some(Lower(name))
      else None
    case Char(c) =>
      if c.Some? && c.value != "" then Some(Lower(c.value)) else None
  }

  /** Both sides of each modifier, and every command key, read as the modifier a combo names. */
  lemma ModifierSides()
    ensures NormalizeKey(Special("ctrl_l")) == NormalizeKey(Special("ctrl_r")) == Some("ctrl")
    ensures NormalizeKey(Special("cmd")) == NormalizeKey(Special("cmd_l")) == NormalizeKey(Special("cmd_r")) == Some("ctrl")
    ensures NormalizeKey(Special("shift_l")) == NormalizeKey(Special("shift_r")) == Some("shift")
    ensures NormalizeKey(Special("alt_l")) == NormalizeKey(Special("alt_r")) == NormalizeKey(Special("alt_gr")) == Some("alt")
    ensures NormalizePart("cmd") == "ctrl"
  {
    CtrlSides();
    CmdSides();
    ShiftSides();
    AltSides();
    CmdIsCtrl();
  }

  lemma CtrlSides()
    ensures NormalizeKey(Special("ctrl_l")) == NormalizeKey(Special("ctrl_r")) == Some("ctrl")
  {
    assert SpecialName("ctrl_l") == Some("ctrl");
    assert SpecialName("ctrl_r") == Some("ctrl");
  }

  lemma CmdSides()
    ensures NormalizeKey(Special("cmd")) == NormalizeKey(Special("cmd_l")) == NormalizeKey(Special("cmd_r")) == Some("ctrl")
  {
    assert SpecialName("cmd") == Some("ctrl");
    assert SpecialName("cmd_l") == Some("ctrl");
    assert SpecialName("cmd_r") == Some("ctrl");
  }

  lemma ShiftSides()
    ensures NormalizeKey(Special("shift_l")) == NormalizeKey(Special("shift_r")) == Some("shift")
  {
    assert "shift_l" !in {"ctrl_l", "ctrl_r", "cmd", "cmd_l", "cmd_r"};
    assert "shift_r" !in {"ctrl_l", "ctrl_r", "cmd", "cmd_l", "cmd_r"};
  }

  lemma AltSides()
    ensures NormalizeKey(Special("alt_l")) == NormalizeKey(Special("alt_r")) == NormalizeKey(Special("alt_gr")) == Some("alt")
  {
    assert "alt_l" !in {"ctrl_l", "ctrl_r", "cmd", "cmd_l", "cmd_r"} && "alt_l" !in {"shift_l", "shift_r"};
    assert "alt_r" !in {"ctrl_l", "ctrl_r", "cmd", "cmd_l", "cmd_r"} && "alt_r" !in {"shift_l", "shift_r"};
    assert "alt_gr" !in {"ctrl_l", "ctrl_r", "cmd", "cmd_l", "cmd_r"} && "alt_gr" !in {"shift_l", "shift_r"};
  }

  /** A character key reads as its lower-case character, so a shifted letter still matches its combo part. */
  lemma CharKeyIgnoresCase(c: string, d: string)
    requires c != "" && Lower(c) == Lower(d)
    ensures NormalizeKey(Char(Some(c))) == NormalizeKey(Char(Some(d))) == Some(Lower(c))
  {
  }

  class GlobalHotkeys {
    var hotkeys: map<set<string>, Callback>
    var currentKeys: set<string>
    /** The callbacks launched so far, oldest first. */
    var fired: seq<Callback>

    constructor()
      ensures hotkeys == map[] && currentKeys == {} && fired == []
    {
      hotkeys, currentKeys, fired := map[], {}, [];
    }

    /** `register`: the combo's key set now launches `callback`, replacing any earlier one. */
    method Register(keys: string, callback: Callback)
      modifies this
      ensures hotkeys == old(hotkeys)[Combo(keys) := callback]
      ensures currentKeys == old(currentKeys) && fired == old(fired)
    {
      hotkeys := hotkeys[Combo(keys) := callback];
    }

    /** `unregister`: the combo's key set is forgotten; an unknown combo changes nothing. */
    method Unregister(keys: string)
      modifies this
      ensures hotkeys == old(hotkeys) - {Combo(keys)}
      ensures Combo(keys) !in old(hotkeys) ==> hotkeys == old(hotkeys)
      ensures currentKeys == old(currentKeys) && fired == old(fired)
    {
      hotkeys := hotkeys - {Combo(keys)};
    }

    /**
     * `_on_press`: the key joins the held set, and the combo equal to the
     * whole held set, if registered, is launched. A key without a name
     * changes nothing.
     */
    method OnPress(key: Key)
      modifies this
      ensures NormalizeKey(key).None? ==> currentKeys == old(currentKeys) && fired == old(fired)
      ensures NormalizeKey(key).Some? ==>
        currentKeys == old(currentKeys) + {NormalizeKey(key).value} &&
        fired == old(fired) + (if currentKeys in hotkeys then [hotkeys[currentKeys]] else [])
      ensures hotkeys == old(hotkeys)
    {
      var name := NormalizeKey(key);
      if name.None? || name.value == "" {
        return;
      }
      currentKeys := currentKeys + {name.value};
      var frozen := currentKeys;
      if frozen in hotkeys {
        fired := fired + [hotkeys[frozen]];
      }
    }

    /** `_on_release`: the key leaves the held set; a key not held, or without a name, changes nothing. */
    method OnRelease(key: Key)
      modifies this
      ensures currentKeys == (if NormalizeKey(key).Some? then old(currentKeys) - {NormalizeKey(key).value} else old(currentKeys))
      ensures hotkeys == old(hotkeys) && fired == old(fired)
    {
      var name := NormalizeKey(key);
      if name.Some? && name.value != "" {
        currentKeys := currentKeys - {name.value};
      }
    }
  }
}
