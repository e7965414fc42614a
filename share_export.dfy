/** The export helpers of the share button: the display names of the players, the
    bonus and points records keyed by display name, the starting player, the winner,
    and the guard that keeps a blank game name out of the share settings. */
module ShareExport {
  import opened Common
  import opened Json
  import opened GameStore
  import Score
  import opened ShareSettings

  const DefaultNamePrefix: string := "Spieler "

  /** `p.name || \`Spieler ${i+1}\``: an empty name is replaced by the 1-based position. */
  function DisplayName(p: Player, i: nat): (r: string)
    ensures |r| > 0
    ensures p.name != "" ==> r == p.name
    ensures p.name == "" ==> r == DefaultNamePrefix + NatToString(i + 1)
  {
    if p.name != "" then p.name else DefaultNamePrefix + NatToString(i + 1)
  }

  /** `getPlayerNames`: one display name per player, in roster order. */
  function PlayerNames(ps: seq<Player>): (r: seq<string>)
    ensures |r| == |ps|
    ensures forall i :: 0 <= i < |ps| ==> r[i] != ""
    ensures forall i :: 0 <= i < |ps| && ps[i].name != "" ==> r[i] == ps[i].name
    ensures forall i :: 0 <= i < |ps| && ps[i].name == "" ==> r[i] == DefaultNamePrefix + NatToString(i + 1)
  {
    seq(|ps|, i requires 0 <= i < |ps| => DisplayName(ps[i], i))
  }

  /** Two unnamed players never share a display name. */
  lemma DefaultNamesDistinct(ps: seq<Player>, i: nat, j: nat)
    requires i < j < |ps| && ps[i].name == "" && ps[j].name == ""
    ensures PlayerNames(ps)[i] != PlayerNames(ps)[j]
  {
    var names := PlayerNames(ps);
    NatToStringInjective(i + 1, j + 1);
    assert names[i][|DefaultNamePrefix|..] == NatToString(i + 1);
    assert names[j][|DefaultNamePrefix|..] == NatToString(j + 1);
  }

  /** The record that assigning `record[names[k]] = values[k]` for k = 0, 1, ... builds:
      a later entry under the same name overwrites an earlier one. */
  function Tally<V>(names: seq<string>, values: seq<V>): (r: map<string, V>)
    requires |names| == |values|
    ensures r.Keys == set n | n in names
  {
    if |names| == 0 then map[]
    else Tally(names[..|names| - 1], values[..|values| - 1])[names[|names| - 1] := values[|values| - 1]]
  }

  /** Each name holds the value of its last occurrence. */
  lemma {:induction false} TallyLastWins<V>(names: seq<string>, values: seq<V>, j: nat)
    requires |names| == |values| && j < |names|
    requires forall k :: j < k < |names| ==> names[k] != names[j]
    ensures Tally(names, values)[names[j]] == values[j]
  {
    var n := |names| - 1;
    if j < n {
      TallyLastWins(names[..n], values[..n], j);
    }
  }

  /** Assigning one more entry extends the record built so far. */
  lemma TallySnoc<V>(names: seq<string>, values: seq<V>, i: nat)
    requires |names| == |values| && i < |names|
    ensures Tally(names[..i + 1], values[..i + 1]) == Tally(names[..i], values[..i])[names[i] := values[i]]
  {
    assert names[..i + 1][..i] == names[..i] && values[..i + 1][..i] == values[..i];
  }

  /** `calculateUpperBonus(calculateUpperSum(p)) > 0` for every player, in roster order. */
  function BonusFlags(ps: seq<Player>): (r: seq<bool>)
    ensures |r| == |ps|
    ensures forall i :: 0 <= i < |ps| ==> (r[i] <==> Score.UpperSum(ps[i].upper) >= Score.BonusThreshold)
  {
    seq(|ps|, i requires 0 <= i < |ps| => Score.UpperBonus(Score.UpperSum(ps[i].upper)) > 0)
  }

  /** `calculateGrandTotal(p)` for every player, in roster order. */
  function GrandTotals(ps: seq<Player>): (r: seq<int>)
    ensures |r| == |ps|
    ensures forall i :: 0 <= i < |ps| ==> r[i] == Score.GrandTotal(ps[i].upper, ps[i].lower)
  {
    seq(|ps|, i requires 0 <= i < |ps| => Score.GrandTotal(ps[i].upper, ps[i].lower))
  }

  /** The record `getBonus` returns. */
  function Bonus(ps: seq<Player>): (r: map<string, bool>)
    ensures r.Keys == set n | n in PlayerNames(ps)
  {
    Tally(PlayerNames(ps), BonusFlags(ps))
  }

  /** The record `getPoints` returns. */
  function Points(ps: seq<Player>): (r: map<string, int>)
    ensures r.Keys == set n | n in PlayerNames(ps)
  {
    Tally(PlayerNames(ps), GrandTotals(ps))
  }

  /** The bonus record has one entry per display name, and a name's entry says whether
      the last player shown under it reached the bonus threshold. */
  lemma BonusSpec(ps: seq<Player>, j: nat)
    requires j < |ps|
    requires forall k :: j < k < |ps| ==> PlayerNames(ps)[k] != PlayerNames(ps)[j]
    ensures Bonus(ps).Keys == set n | n in PlayerNames(ps)
    ensures Bonus(ps)[PlayerNames(ps)[j]] <==> Score.UpperSum(ps[j].upper) >= Score.BonusThreshold
  {
    TallyLastWins(PlayerNames(ps), BonusFlags(ps), j);
  }

  /** The points record has one entry per display name, holding the grand total of the
      last player shown under it. */
  lemma PointsSpec(ps: seq<Player>, j: nat)
    requires j < |ps|
    requires forall k :: j < k < |ps| ==> PlayerNames(ps)[k] != PlayerNames(ps)[j]
    ensures Points(ps).Keys == set n | n in PlayerNames(ps)
    ensures Points(ps)[PlayerNames(ps)[j]] == Score.GrandTotal(ps[j].upper, ps[j].lower)
  {
    TallyLastWins(PlayerNames(ps), GrandTotals(ps), j);
  }

  /** A record whose only key is `k` is the one-entry record of `k`. */
  lemma SingleEntry<V>(m: map<string, V>, k: string)
    requires m.Keys == {k}
    ensures m == map[k := m[k]]
  {
  }

  /** Two players with the same name share one entry: the later player's total hides
      the earlier one's. */
  lemma SameNameLastWins(p: Player, q: Player)
    requires p.name != "" && p.name == q.name
    ensures Points([p, q]) == map[p.name := Score.GrandTotal(q.upper, q.lower)]
  {
    var names := PlayerNames([p, q]);
    assert names == [p.name, q.name];
    PointsSpec([p, q], 1);
    SingleEntry(Points([p, q]), p.name);
  }

  /** An unnamed player keeps its own entry unless a later player is explicitly named
      like its default name. */
  lemma UnnamedPlayerPoints(ps: seq<Player>, j: nat)
    requires j < |ps| && ps[j].name == ""
    requires forall k :: j < k < |ps| ==> ps[k].name != DefaultNamePrefix + NatToString(j + 1)
    ensures Points(ps)[PlayerNames(ps)[j]] == Score.GrandTotal(ps[j].upper, ps[j].lower)
  {
    forall k | j < k < |ps| && ps[k].name == ""
      ensures PlayerNames(ps)[k] != PlayerNames(ps)[j]
    {
      DefaultNamesDistinct(ps, j, k);
    }
    PointsSpec(ps, j);
  }

  /** A player named like the default name of an earlier unnamed player hides that
      player's entry. */
  lemma NamedLikeDefaultHides(p: Player, q: Player)
    requires p.name == "" && q.name == DefaultNamePrefix + NatToString(1)
    ensures Points([p, q]) == map[q.name := Score.GrandTotal(q.upper, q.lower)]
  {
    var names := PlayerNames([p, q]);
    assert names[0] == DefaultNamePrefix + NatToString(0 + 1);
    assert names == [q.name, q.name];
    PointsSpec([p, q], 1);
    SingleEntry(Points([p, q]), q.name);
  }

  /** `getBonus`: the record filled in roster order. */
  method GetBonus(ps: seq<Player>) returns (bonus: map<string, bool>)
    ensures bonus == Bonus(ps)
  {
    ghost var names, flags := PlayerNames(ps), BonusFlags(ps);
    bonus := map[];
    for i := 0 to |ps|
      invariant bonus == Tally(names[..i], flags[..i])
    {
      TallySnoc(names, flags, i);
      assert names[i] == DisplayName(ps[i], i);
      bonus := bonus[DisplayName(ps[i], i) := Score.UpperBonus(Score.UpperSum(ps[i].upper)) > 0];
    }
    assert names[..|ps|] == names && flags[..|ps|] == flags;
  }

  /** `getPoints`: the record filled in roster order. */
  method GetPoints(ps: seq<Player>) returns (points: map<string, int>)
    ensures points == Points(ps)
  {
    ghost var names, totals := PlayerNames(ps), GrandTotals(ps);
    points := map[];
    for i := 0 to |ps|
      invariant points == Tally(names[..i], totals[..i])
    {
      TallySnoc(names, totals, i);
      assert names[i] == DisplayName(ps[i], i);
      points := points[DisplayName(ps[i], i) := Score.GrandTotal(ps[i].upper, ps[i].lower)];
    }
    assert names[..|ps|] == names && totals[..|ps|] == totals;
  }

  /** `getStartingPlayer`: `getPlayerNames()[0] || ''`. */
  function StartingPlayer(ps: seq<Player>): (r: string)
    ensures |ps| == 0 ==> r == ""
    ensures |ps| > 0 ==> r == DisplayName(ps[0], 0) && r != ""
  {
    var names := PlayerNames(ps);
    if |names| > 0 && names[0] != "" then names[0] else ""
  }

  /** `points[name] ?? 0`. */
  function PointsOf(points: map<string, int>, name: string): int
  {
    if name in points then points[name] else 0
  }

  /** The name with the most points, the first such name when several tie: a running
      maximum over `names` that starts from the first name (`''` when there is none)
      and that only a strictly greater `points[name] ?? 0` replaces. */
  method Leader(names: seq<string>, points: map<string, int>) returns (winner: string)
    requires forall k :: 0 <= k < |names| ==> names[k] != ""
    ensures |names| == 0 ==> winner == ""
    ensures |names| > 0 ==> winner in names
    ensures forall n :: n in names ==> PointsOf(points, n) <= PointsOf(points, winner)
    ensures |names| > 0 ==>
              exists w :: 0 <= w < |names| && names[w] == winner
                && (forall k :: 0 <= k < w ==> PointsOf(points, names[k]) < PointsOf(points, winner))
  {
    winner := if |names| > 0 && names[0] != "" then names[0] else "";
    var max := PointsOf(points, winner);
    ghost var w := 0;
    for i := 0 to |names|
      invariant w <= i && (|names| > 0 ==> w < |names| && winner == names[w])
      invariant |names| == 0 ==> winner == ""
      invariant max == PointsOf(points, winner)
      invariant forall k :: 0 <= k < i ==> PointsOf(points, names[k]) <= max
      invariant forall k :: 0 <= k < w ==> PointsOf(points, names[k]) < max
    {
      if PointsOf(points, names[i]) > max {
        winner := names[i];
        max := PointsOf(points, names[i]);
        w := i;
      }
    }
  }

  /** `getWinner`: the leader of the display names under the points record. The winner
      has the most points of all names and is the first of the names with the most
      points; with no players it is `''`. */
  method GetWinner(ps: seq<Player>) returns (winner: string)
    ensures |ps| == 0 ==> winner == ""
    ensures |ps| > 0 ==> winner in PlayerNames(ps)
    ensures forall n :: n in PlayerNames(ps) ==> PointsOf(Points(ps), n) <= PointsOf(Points(ps), winner)
    ensures |ps| > 0 ==>
              exists w :: 0 <= w < |ps| && PlayerNames(ps)[w] == winner
                && (forall k :: 0 <= k < w ==> PointsOf(Points(ps), PlayerNames(ps)[k]) < PointsOf(Points(ps), winner))
  {
    var points := GetPoints(ps);
    winner := Leader(PlayerNames(ps), points);
  }

  /** The characters `String.prototype.trim` removes: the ECMAScript white space and
      line terminators. */
  predicate IsJsSpace(c: char)
  {
    var n := c as int;
    || n == 0x09 || n == 0x0A || n == 0x0B || n == 0x0C || n == 0x0D || n == 0x20
    || n == 0xA0 || n == 0x1680 || (0x2000 <= n <= 0x200A) || n == 0x2028 || n == 0x2029
    || n == 0x202F || n == 0x205F || n == 0x3000 || n == 0xFEFF
  }

  /** The number of white-space characters `s` starts with. */
  function LeadingSpace(s: string): (n: nat)
    ensures n <= |s|
    ensures forall k :: 0 <= k < n ==> IsJsSpace(s[k])
    ensures n < |s| ==> !IsJsSpace(s[n])
  {
    if |s| == 0 || !IsJsSpace(s[0]) then 0 else 1 + LeadingSpace(s[1..])
  }

  /** The index at which the white space that `s` ends with begins. */
  function TrailingSpaceStart(s: string): (n: nat)
    ensures n <= |s|
    ensures forall k :: n <= k < |s| ==> IsJsSpace(s[k])
    ensures n > 0 ==> !IsJsSpace(s[n - 1])
  {
    if |s| == 0 || !IsJsSpace(s[|s| - 1]) then |s| else TrailingSpaceStart(s[..|s| - 1])
  }

  /** `trim`: the part of `s` between its leading and its trailing white space. It is
      empty exactly when `s` is all white space, and otherwise starts and ends with a
      character that is not white space. */
  function Trim(s: string): (r: string)
    ensures |r| == 0 <==> forall k :: 0 <= k < |s| ==> IsJsSpace(s[k])
    ensures |r| > 0 ==> !IsJsSpace(r[0]) && !IsJsSpace(r[|r| - 1])
    ensures LeadingSpace(s) + |r| <= |s| && r == s[LeadingSpace(s)..LeadingSpace(s) + |r|]
    ensures forall k :: LeadingSpace(s) + |r| <= k < |s| ==> IsJsSpace(s[k])
  {
    var a := LeadingSpace(s);
    var rest := s[a..];
    var b := TrailingSpaceStart(rest);
    assert rest[..b] == s[a..a + b];
    if b == 0 then
      // the rest is all white space and does not start with white space: it is empty
      assert a == |s|;
      rest[..b]
    else
      assert !IsJsSpace(s[a]);
      assert forall k :: a + b <= k < |s| ==> IsJsSpace(s[k]) by {
        forall k | a + b <= k < |s| ensures IsJsSpace(s[k]) {
          assert s[k] == rest[k - a];
        }
      }
      rest[..b]
  }

  /** Trimming twice trims nothing more. */
  lemma TrimIdempotent(s: string)
    ensures Trim(Trim(s)) == Trim(s)
  {
    var r := Trim(s);
    var a := LeadingSpace(r);
    var b := TrailingSpaceStart(r[a..]);
    if |r| > 0 {
      assert a == 0;
      assert r[a..] == r;
      assert b == |r|;
    }
  }

  /** The settings dialog of the share button: the name being edited, whether the
      dialog is open, and the settings store it saves into. */
  class SettingsDialog {
    var tempGameName: string
    var isOpen: bool
    const store: ShareSettingsStore

    constructor (store: ShareSettingsStore, tempGameName: string)
      ensures this.store == store && this.tempGameName == tempGameName && !isOpen
    {
      this.store := store;
      this.tempGameName := tempGameName;
      isOpen := false;
    }

    /** `isSaveDisabled`: the edited name is empty or all white space. */
    function IsSaveDisabled(): (r: bool)
      reads this`tempGameName
      ensures r <==> forall k :: 0 <= k < |tempGameName| ==> IsJsSpace(tempGameName[k])
    {
      |Trim(tempGameName)| == 0
    }

    /** `handleShareSettingsSave`: a blank name changes nothing; otherwise the trimmed
        name becomes the game name (every other setting kept), replaces the edited
        text, and the dialog closes. */
    method SaveShareSettings()
      requires store.Valid()
      modifies this`tempGameName, this`isOpen, store
      ensures store.Valid()
      ensures old(IsSaveDisabled()) ==>
                && tempGameName == old(tempGameName) && isOpen == old(isOpen)
                && store.shareSettings == old(store.shareSettings)
      ensures !old(IsSaveDisabled()) ==>
                && tempGameName == Trim(old(tempGameName)) && !isOpen
                && store.shareSettings == old(store.shareSettings)[GameNameKey := JStr(Trim(old(tempGameName)))]
    {
      var trimmed := Trim(tempGameName);
      if |trimmed| == 0 {
        return;
      }
      store.UpdateShareSettings(map[GameNameKey := JStr(trimmed)]);
      assert old(store.shareSettings) + map[GameNameKey := JStr(trimmed)]
          == old(store.shareSettings)[GameNameKey := JStr(trimmed)];
      tempGameName := trimmed;
      isOpen := false;
    }
  }

  /** A saved name is already trimmed, so saving it again stores the same name. */
  lemma SavedNameStable(s: string)
    requires |Trim(s)| > 0
    ensures Trim(Trim(s)) == Trim(s) && |Trim(Trim(s))| > 0
  {
    TrimIdempotent(s);
  }
}
