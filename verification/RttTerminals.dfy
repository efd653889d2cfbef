/** The virtual terminals of the RTT stream: what the host shows of a terminal output, and where. */
module RttTerminals {
  import opened Types
  import opened RttRing

  const SWITCH: Byte := 0xFF

  /** The value of a hexadecimal digit. */
  function HexValue(b: Byte): Option<nat> {
    if 48 <= b <= 57 then Some(b - 48) else if 65 <= b <= 70 then Some(b - 55) else None
  }

  /** The host's reading: which byte appears on which terminal, and the terminal that is selected at the end. */
  function Shown(stream: seq<Byte>, terminal: nat): (seq<(nat, Byte)>, nat) {
    if stream == [] then ([], terminal)
    else if stream[0] == SWITCH && |stream| > 1 && HexValue(stream[1]).Some? then Shown(stream[2..], HexValue(stream[1]).value)
    else
      var (rest, last) := Shown(stream[1..], terminal);
      ([(terminal, stream[0])] + rest, last)
  }

  /** The bytes `s`, all on one terminal. */
  function On(terminal: nat, s: seq<Byte>): seq<(nat, Byte)> {
    seq(|s|, (i: nat) requires i < |s| => (terminal, s[i]))
  }

  lemma {:induction false} PlainShown(s: seq<Byte>, rest: seq<Byte>, terminal: nat)
    requires SWITCH !in s
    ensures Shown(s + rest, terminal) == (On(terminal, s) + Shown(rest, terminal).0, Shown(rest, terminal).1)
  {
    if s == [] {
      assert s + rest == rest;
      assert On(terminal, s) + Shown(rest, terminal).0 == Shown(rest, terminal).0;
    } else {
      assert (s + rest)[1..] == s[1..] + rest;
      PlainShown(s[1..], rest, terminal);
      assert On(terminal, s) == [(terminal, s[0])] + On(terminal, s[1..]);
      assert On(terminal, s) + Shown(rest, terminal).0
          == [(terminal, s[0])] + (On(terminal, s[1..]) + Shown(rest, terminal).0);
    }
  }

  lemma SwitchShown(id: nat, rest: seq<Byte>, terminal: nat)
    requires id < 16
    ensures Shown(SwitchTo(id) + rest, terminal) == Shown(rest, id)
  {
    assert (SwitchTo(id) + rest)[2..] == rest;
  }

  /** A string between two switches. */
  lemma SwitchedShown(id: nat, active: nat, s: seq<Byte>, terminal: nat)
    requires id < 16 && active < 16 && SWITCH !in s
    ensures Shown(SwitchTo(id) + s + SwitchTo(active), terminal) == (On(id, s), active)
  {
    assert SwitchTo(id) + s + SwitchTo(active) == SwitchTo(id) + (s + SwitchTo(active));
    SwitchShown(id, s + SwitchTo(active), terminal);
    PlainShown(s, SwitchTo(active), id);
    assert SwitchTo(active) + [] == SwitchTo(active);
    SwitchShown(active, [], id);
    assert On(id, s) + [] == On(id, s);
  }

  /**
   Round trip: of a terminal output the host shows, on that terminal and nowhere else, as many bytes of the string as the
   call says it has written, none if it reports an error, and the active terminal is selected again.
   */
  lemma TerminalShows(mode: Mode, id: nat, active: nat, s: seq<Byte>, room: nat)
    requires active < 16 && SWITCH !in s
    ensures var status := TerminalStatus(mode, id, s, room); var n := if status < 0 then 0 else status;
            n <= |s| && Shown(TerminalBytes(mode, id, active, s, room), active) == (On(id, s[..n]), active)
  {
    var status := TerminalStatus(mode, id, s, room);
    if id < 16 && ((mode.Skip? && room >= |s| + 4) || (mode.Trim? && room >= 4)) {
      SwitchedShown(id, active, s[..status], active);
      assert mode.Skip? ==> s[..status] == s;
    } else {
      assert On(id, s[..0]) == [];
    }
  }
}
