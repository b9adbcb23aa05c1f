/** The unit record every component receives, and the helpers several
    components share: `Array.prototype.find`, `Math.abs`, the faction test
    on ids and JavaScript's comparison of a quotient with a threshold. */
module Units {
  import opened Wrappers
  import Text

  /** A board coordinate: `{ x, y }` (a `Tile` in the movement service, a
      unit's `position` elsewhere). */
  datatype Tile = Tile(x: int, y: int)

  /** A unit. `unitType` is the source's `type`; it is kept as a string
      because the components have `default:` branches for other values. */
  datatype Unit = Unit(
    id: string,
    name: string,
    unitType: string,
    health: int,
    maxHealth: int,
    morale: int,
    position: Tile,
    isSelected: bool,
    abilityUsed: bool)

  function Abs(n: int): (r: nat)
    ensures r == n || r == -n
  {
    if n < 0 then -n else n
  }

  /** Index of the first element satisfying `p`, as `findIndex` would give it. */
  function FindIndex<T>(s: seq<T>, p: T -> bool): (r: Option<nat>)
    ensures r.None? ==> forall i :: 0 <= i < |s| ==> !p(s[i])
    ensures r.Some? ==> r.value < |s| && p(s[r.value])
    ensures r.Some? ==> forall j :: 0 <= j < r.value ==> !p(s[j])
  {
    if s == [] then None
    else if p(s[0]) then Some(0)
    else match FindIndex(s[1..], p)
      case None => None
      case Some(k) => Some(k + 1)
  }

  /** `s.find(p)`: the first element satisfying `p`, or nothing. */
  function Find<T>(s: seq<T>, p: T -> bool): (r: Option<T>)
    ensures r.None? <==> forall i :: 0 <= i < |s| ==> !p(s[i])
    ensures r.Some? ==> r.value in s && p(r.value)
    ensures r.Some? ==> exists i :: 0 <= i < |s| && s[i] == r.value &&
                          forall j :: 0 <= j < i ==> !p(s[j])
  {
    match FindIndex(s, p)
    case None => None
    case Some(i) => Some(s[i])
  }

  /** `units.find(u => u.isSelected) || null`: the selected unit shown by
      the panels and the board. */
  function SelectedUnit(units: seq<Unit>): (r: Option<Unit>)
    ensures r.None? <==> forall i :: 0 <= i < |units| ==> !units[i].isSelected
    ensures r.Some? ==> r.value in units && r.value.isSelected
    ensures r.Some? ==> exists i :: 0 <= i < |units| && units[i] == r.value &&
                          forall j :: 0 <= j < i ==> !units[j].isSelected
  {
    Find(units, (u: Unit) => u.isSelected)
  }

  /** `id.startsWith('enemy')`: the faction of a unit is read off its id. */
  predicate IsEnemyId(id: string)
  {
    Text.StartsWith(id, "enemy")
  }

  /** JavaScript's `h / m > t` for integer `h`, `m` and a finite threshold
      `t`: a zero divisor gives +Infinity (h > 0), NaN (h == 0) or -Infinity. */
  predicate QuotientAbove(h: int, m: int, t: real): (b: bool)
    ensures m == 0 ==> (b <==> h > 0)
    ensures m > 0 ==> (b <==> (h as real) > t * (m as real))
    ensures m < 0 ==> (b <==> (h as real) < t * (m as real))
  {
    if m == 0 then h > 0
    else
      var q := (h as real) / (m as real);
      assert q * (m as real) == h as real;
      assert m > 0 ==> (q > t <==> q * (m as real) > t * (m as real));
      assert m < 0 ==> (q > t <==> q * (m as real) < t * (m as real));
      q > t
  }

  /** JavaScript's `h / m >= t`, with the same treatment of a zero divisor. */
  predicate QuotientAtLeast(h: int, m: int, t: real): (b: bool)
    ensures m == 0 ==> (b <==> h > 0)
    ensures m > 0 ==> (b <==> (h as real) >= t * (m as real))
    ensures m < 0 ==> (b <==> (h as real) <= t * (m as real))
  {
    if m == 0 then h > 0
    else
      var q := (h as real) / (m as real);
      assert q * (m as real) == h as real;
      assert m > 0 ==> (q >= t <==> q * (m as real) >= t * (m as real));
      assert m < 0 ==> (q >= t <==> q * (m as real) <= t * (m as real));
      q >= t
  }

  /** `(h / m) * 100`, the width of a percentage bar; the bar is not clamped. */
  function Percentage(h: int, m: int): (p: real)
    requires m != 0
    ensures p * (m as real) == 100.0 * (h as real)
    ensures 0 <= h <= m ==> 0.0 <= p <= 100.0
    ensures p == 100.0 <==> h == m
    ensures 0 < m < h ==> p > 100.0
  {
    var q := (h as real) / (m as real);
    assert q * (m as real) == h as real;
    assert 0 <= h <= m ==> 0.0 <= q <= 1.0;
    assert 0 < m < h ==> q > 1.0;
    assert q * 100.0 == 100.0 ==> q == 1.0;
    q * 100.0
  }
}
