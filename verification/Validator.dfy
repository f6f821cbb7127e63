/** The rules a deck layout must meet before it is stored. */
module Validator {
  import opened Basics
  import opened Protocol

  /** `check_action`: an embedded action must be an op its author could invoke. */
  predicate ActionPermitted(action: Option<Op>, role: Role) {
    match action
    case None => true
    case Some(Unknown(_)) => false
    case Some(Known(op)) =>
      match AccessFor(op)
      case Authenticated => true
      case AdminOnly => role == Admin
      case PreAuth | EventOnly => false
  }

  predicate InProfile(p: Profile, i: int, j: int) {
    0 <= i < |p.pages| && 0 <= j < |p.pages[i].buttons|
  }

  function At(p: Profile, i: int, j: int): Button
    requires InProfile(p, i, j)
  {
    p.pages[i].buttons[j]
  }

  /** Reading order: page by page, button by button. */
  predicate Before(k: int, l: int, i: int, j: int) {
    k < i || (k == i && l < j)
  }

  predicate InGrid(p: Profile, pos: Position) {
    pos.col < p.grid.cols && pos.row < p.grid.rows
  }

  ghost predicate FreshId(p: Profile, i: int, j: int)
    requires InProfile(p, i, j)
  {
    forall k, l :: InProfile(p, k, l) && Before(k, l, i, j) ==> At(p, k, l).id != At(p, i, j).id
  }

  ghost predicate FreshPosition(p: Profile, i: int, j: int)
    requires InProfile(p, i, j)
  {
    forall l :: 0 <= l < j ==> At(p, i, l).pos != At(p, i, j).pos
  }

  ghost predicate ButtonOk(p: Profile, role: Role, i: int, j: int)
    requires InProfile(p, i, j)
  {
    && FreshId(p, i, j)
    && InGrid(p, At(p, i, j).pos)
    && FreshPosition(p, i, j)
    && ActionPermitted(At(p, i, j).onTap, role)
    && ActionPermitted(At(p, i, j).onLongPress, role)
  }

  ghost predicate FreshPage(p: Profile, i: int)
    requires 0 <= i < |p.pages|
  {
    forall k :: 0 <= k < i ==> p.pages[k].id != p.pages[i].id
  }

  /** Every page before page `i`, and every button before `(i, j)`, meets the rules. */
  ghost predicate CleanBefore(p: Profile, role: Role, i: int, j: int) {
    && (forall k :: 0 <= k < i && k < |p.pages| ==> FreshPage(p, k))
    && (forall k, l :: InProfile(p, k, l) && Before(k, l, i, j) ==> ButtonOk(p, role, k, l))
  }

  /** What a stored profile promises, without any order of checking. */
  ghost predicate ProfileOk(p: Profile, role: Role) {
    && p.pages != []
    && p.grid.cols >= 1 && p.grid.rows >= 1
    && (forall i, k :: 0 <= k < i < |p.pages| ==> p.pages[k].id != p.pages[i].id)
    && (forall i, j, k, l :: InProfile(p, i, j) && InProfile(p, k, l) && (i != k || j != l)
                             ==> At(p, i, j).id != At(p, k, l).id)
    && (forall i, j :: InProfile(p, i, j) ==> InGrid(p, At(p, i, j).pos))
    && (forall i, j, l :: InProfile(p, i, j) && InProfile(p, i, l) && j != l
                          ==> At(p, i, j).pos != At(p, i, l).pos)
    && (forall i, j :: InProfile(p, i, j) ==>
          ActionPermitted(At(p, i, j).onTap, role) && ActionPermitted(At(p, i, j).onLongPress, role))
  }

  /** The rule a refusal names, and where it was broken. */
  datatype Violation =
    | NoPages
    | EmptyGrid
    | DuplicatePage(page: nat)
    | DuplicateButton(page: nat, button: nat)
    | OutsideGrid(page: nat, button: nat)
    | SharedPosition(page: nat, button: nat)
    | ForbiddenTap(page: nat, button: nat)
    | ForbiddenLongPress(page: nat, button: nat)

  /** The named rule is broken at the named place, and every rule checked before it held. */
  ghost predicate FirstBreach(p: Profile, role: Role, v: Violation) {
    match v
    case NoPages => p.pages == []
    case EmptyGrid => p.pages != [] && (p.grid.cols == 0 || p.grid.rows == 0)
    case DuplicatePage(i) =>
      i < |p.pages| && CleanBefore(p, role, i, 0) && !FreshPage(p, i)
    case DuplicateButton(i, j) =>
      InProfile(p, i, j) && CleanBefore(p, role, i, j) && FreshPage(p, i) && !FreshId(p, i, j)
    case OutsideGrid(i, j) =>
      InProfile(p, i, j) && CleanBefore(p, role, i, j) && FreshPage(p, i)
      && FreshId(p, i, j) && !InGrid(p, At(p, i, j).pos)
    case SharedPosition(i, j) =>
      InProfile(p, i, j) && CleanBefore(p, role, i, j) && FreshPage(p, i)
      && FreshId(p, i, j) && InGrid(p, At(p, i, j).pos) && !FreshPosition(p, i, j)
    case ForbiddenTap(i, j) =>
      InProfile(p, i, j) && CleanBefore(p, role, i, j) && FreshPage(p, i)
      && FreshId(p, i, j) && InGrid(p, At(p, i, j).pos) && FreshPosition(p, i, j)
      && !ActionPermitted(At(p, i, j).onTap, role)
    case ForbiddenLongPress(i, j) =>
      InProfile(p, i, j) && CleanBefore(p, role, i, j) && FreshPage(p, i)
      && FreshId(p, i, j) && InGrid(p, At(p, i, j).pos) && FreshPosition(p, i, j)
      && ActionPermitted(At(p, i, j).onTap, role) && !ActionPermitted(At(p, i, j).onLongPress, role)
  }

  ghost function PageIds(p: Profile, i: nat): set<Text> {
    set k | 0 <= k < i && k < |p.pages| :: p.pages[k].id
  }

  ghost function ButtonIds(p: Profile, i: nat, j: nat): set<Text> {
    set k, l | 0 <= k < |p.pages| && 0 <= l < |p.pages[k].buttons| && Before(k, l, i, j) :: At(p, k, l).id
  }

  ghost function Occupied(page: Page, j: nat): set<Position>
    requires j <= |page.buttons|
  {
    set l | 0 <= l < j :: page.buttons[l].pos
  }

  ghost predicate IdBefore(p: Profile, i: nat, j: nat, x: Text) {
    exists k, l :: InProfile(p, k, l) && Before(k, l, i, j) && At(p, k, l).id == x
  }

  lemma ButtonIdsMember(p: Profile, i: nat, j: nat)
    ensures forall x :: x in ButtonIds(p, i, j) <==> IdBefore(p, i, j, x)
  {
    forall x | IdBefore(p, i, j, x) ensures x in ButtonIds(p, i, j) {
      var k, l :| InProfile(p, k, l) && Before(k, l, i, j) && At(p, k, l).id == x;
      assert At(p, k, l).id in ButtonIds(p, i, j);
    }
  }

  lemma IdBeforeStep(p: Profile, i: nat, j: nat, x: Text)
    requires InProfile(p, i, j)
    ensures IdBefore(p, i, j + 1, x) <==> IdBefore(p, i, j, x) || x == At(p, i, j).id
  {
    if IdBefore(p, i, j + 1, x) {
      var k, l :| InProfile(p, k, l) && Before(k, l, i, j + 1) && At(p, k, l).id == x;
      assert (k == i && l == j) || Before(k, l, i, j);
    }
    if IdBefore(p, i, j, x) {
      var k, l :| InProfile(p, k, l) && Before(k, l, i, j) && At(p, k, l).id == x;
      assert Before(k, l, i, j + 1);
    }
    assert Before(i, j, i, j + 1);
  }

  lemma ButtonIdsStep(p: Profile, i: nat, j: nat)
    requires InProfile(p, i, j)
    ensures ButtonIds(p, i, j + 1) == ButtonIds(p, i, j) + {At(p, i, j).id}
    ensures FreshId(p, i, j) <==> At(p, i, j).id !in ButtonIds(p, i, j)
  {
    ButtonIdsMember(p, i, j);
    ButtonIdsMember(p, i, j + 1);
    forall x ensures x in ButtonIds(p, i, j + 1) <==> x in ButtonIds(p, i, j) + {At(p, i, j).id} {
      IdBeforeStep(p, i, j, x);
    }
  }

  lemma OccupiedStep(p: Profile, i: nat, j: nat)
    requires InProfile(p, i, j)
    ensures FreshPosition(p, i, j) <==> At(p, i, j).pos !in Occupied(p.pages[i], j)
    ensures Occupied(p.pages[i], j + 1) == Occupied(p.pages[i], j) + {At(p, i, j).pos}
  {
    assert forall l :: 0 <= l < j ==> At(p, i, l) == p.pages[i].buttons[l];
  }

  lemma ButtonIdsNextPage(p: Profile, i: nat)
    requires i < |p.pages|
    ensures ButtonIds(p, i + 1, 0) == ButtonIds(p, i, |p.pages[i].buttons|)
  {
    var n := |p.pages[i].buttons|;
    forall k, l | InProfile(p, k, l) ensures Before(k, l, i + 1, 0) <==> Before(k, l, i, n) {}
  }

  lemma CleanStep(p: Profile, role: Role, i: nat, j: nat)
    requires InProfile(p, i, j) && CleanBefore(p, role, i, j) && ButtonOk(p, role, i, j)
    ensures CleanBefore(p, role, i, j + 1)
  {
    forall k, l | InProfile(p, k, l) && Before(k, l, i, j + 1) ensures ButtonOk(p, role, k, l) {
      if !(k == i && l == j) { assert Before(k, l, i, j); }
    }
  }

  lemma CleanPage(p: Profile, role: Role, i: nat)
    requires i < |p.pages| && FreshPage(p, i) && CleanBefore(p, role, i, |p.pages[i].buttons|)
    ensures CleanBefore(p, role, i + 1, 0)
  {
    forall k, l | InProfile(p, k, l) && Before(k, l, i + 1, 0) ensures ButtonOk(p, role, k, l) {
      assert Before(k, l, i, |p.pages[i].buttons|);
    }
  }

  lemma CleanIsOk(p: Profile, role: Role)
    requires p.pages != [] && p.grid.cols >= 1 && p.grid.rows >= 1
    requires CleanBefore(p, role, |p.pages|, 0)
    ensures ProfileOk(p, role)
  {
    forall i, j | InProfile(p, i, j) ensures ButtonOk(p, role, i, j) {
      assert Before(i, j, |p.pages|, 0);
    }
    forall i, k | 0 <= k < i < |p.pages| ensures p.pages[k].id != p.pages[i].id {
      assert FreshPage(p, i);
    }
    forall i, j, k, l | InProfile(p, i, j) && InProfile(p, k, l) && (i != k || j != l)
      ensures At(p, i, j).id != At(p, k, l).id
    {
      assert Before(i, j, k, l) || Before(k, l, i, j);
      assert FreshId(p, i, j) && FreshId(p, k, l);
    }
    forall i, j, l | InProfile(p, i, j) && InProfile(p, i, l) && j != l
      ensures At(p, i, j).pos != At(p, i, l).pos
    {
      assert FreshPosition(p, i, j) && FreshPosition(p, i, l);
    }
  }

  lemma BreachRefuses(p: Profile, role: Role, v: Violation)
    requires FirstBreach(p, role, v)
    ensures !ProfileOk(p, role)
  {
    match v
    case NoPages =>
    case EmptyGrid =>
    case DuplicatePage(i) =>
    case DuplicateButton(i, j) =>
    case OutsideGrid(i, j) =>
    case SharedPosition(i, j) =>
      var l :| 0 <= l < j && At(p, i, l).pos == At(p, i, j).pos;
      assert InProfile(p, i, l);
    case ForbiddenTap(i, j) =>
    case ForbiddenLongPress(i, j) =>
  }

  /** `validate`: nested loops over three hash sets. */
  method Validate(p: Profile, role: Role) returns (r: Result<(), Violation>)
    ensures r.Ok? <==> ProfileOk(p, role)
    ensures r.Err? ==> FirstBreach(p, role, r.error)
  {
    if p.pages == [] {
      return Err(NoPages);
    }
    if p.grid.cols == 0 || p.grid.rows == 0 {
      return Err(EmptyGrid);
    }
    var pageIds: set<Text> := {};
    var buttonIds: set<Text> := {};
    for i := 0 to |p.pages|
      invariant pageIds == PageIds(p, i)
      invariant buttonIds == ButtonIds(p, i, 0)
      invariant CleanBefore(p, role, i, 0)
    {
      var page := p.pages[i];
      assert FreshPage(p, i) <==> page.id !in pageIds;
      if page.id in pageIds {
        BreachRefuses(p, role, DuplicatePage(i));
        return Err(DuplicatePage(i));
      }
      pageIds := pageIds + {page.id};
      var occupied: set<Position> := {};
      for j := 0 to |page.buttons|
        invariant FreshPage(p, i)
        invariant buttonIds == ButtonIds(p, i, j)
        invariant occupied == Occupied(page, j)
        invariant CleanBefore(p, role, i, j)
      {
        var button := page.buttons[j];
        assert button == At(p, i, j);
        ButtonIdsStep(p, i, j);
        var breach := None;
        if button.id in buttonIds {
          breach := Some(DuplicateButton(i, j));
        } else if button.pos.col >= p.grid.cols || button.pos.row >= p.grid.rows {
          breach := Some(OutsideGrid(i, j));
        } else if button.pos in occupied {
          breach := Some(SharedPosition(i, j));
        } else if !ActionPermitted(button.onTap, role) {
          breach := Some(ForbiddenTap(i, j));
        } else if !ActionPermitted(button.onLongPress, role) {
          breach := Some(ForbiddenLongPress(i, j));
        }
        OccupiedStep(p, i, j);
        if breach.Some? {
          BreachRefuses(p, role, breach.value);
          return Err(breach.value);
        }
        buttonIds := buttonIds + {button.id};
        occupied := occupied + {button.pos};
        CleanStep(p, role, i, j);
      }
      CleanPage(p, role, i);
      ButtonIdsNextPage(p, i);
      assert PageIds(p, i + 1) == PageIds(p, i) + {page.id};
    }
    CleanIsOk(p, role);
    return Ok(());
  }

  /** A profile a deck could store, an admin could store too. */
  lemma AdminPermitsMore(p: Profile, role: Role)
    requires ProfileOk(p, role)
    ensures ProfileOk(p, Admin)
  {}

  // Pigeonhole: a page never holds more buttons than its grid has cells.

  function Cell(p: Profile, pos: Position): int {
    pos.row * p.grid.cols + pos.col
  }

  lemma RowsApart(cols: int, r1: int, r2: int)
    requires 0 < cols && r1 < r2
    ensures r1 * cols + cols <= r2 * cols
  {
    assert (r2 - r1 - 1) * cols >= 0;
    assert r2 * cols == (r2 - r1 - 1) * cols + r1 * cols + cols;
  }

  lemma CellBounds(cols: int, rows: int, c1: int, r1: int, c2: int, r2: int)
    requires 0 <= c1 < cols && 0 <= c2 < cols && 0 <= r1 < rows && 0 <= r2 < rows
    ensures 0 <= r1 * cols + c1 < rows * cols
    ensures r1 * cols + c1 == r2 * cols + c2 ==> c1 == c2 && r1 == r2
  {
    RowsApart(cols, r1, rows);
    RowsApart(cols, -1, r1);
    if r1 < r2 {
      RowsApart(cols, r1, r2);
    } else if r2 < r1 {
      RowsApart(cols, r2, r1);
    }
  }

  /** Distinct numbers below `n` are at most `n` many. */
  lemma {:induction false} Pigeonhole(xs: seq<int>, n: nat)
    requires forall i :: 0 <= i < |xs| ==> 0 <= xs[i] < n
    requires forall i, j :: 0 <= i < j < |xs| ==> xs[i] != xs[j]
    ensures |xs| <= n
    decreases n
  {
    assert |xs| > 0 ==> 0 <= xs[0] < n;
    if n > 0 {
      if k :| 0 <= k < |xs| && xs[k] == n - 1 {
        var rest := xs[..k] + xs[k + 1..];
        Pigeonhole(rest, n - 1);
      } else {
        Pigeonhole(xs, n - 1);
      }
    }
  }

  lemma PageFitsGrid(p: Profile, role: Role, i: nat)
    requires ProfileOk(p, role) && i < |p.pages|
    ensures |p.pages[i].buttons| <= p.grid.cols * p.grid.rows
  {
    var n := |p.pages[i].buttons|;
    var cells := seq(n, j requires 0 <= j < n => Cell(p, p.pages[i].buttons[j].pos));
    forall j | 0 <= j < n ensures 0 <= cells[j] < p.grid.rows * p.grid.cols {
      assert InProfile(p, i, j) && InGrid(p, At(p, i, j).pos);
      var b := p.pages[i].buttons[j].pos;
      CellBounds(p.grid.cols, p.grid.rows, b.col, b.row, b.col, b.row);
    }
    forall j, l | 0 <= j < l < n ensures cells[j] != cells[l] {
      assert InProfile(p, i, j) && InProfile(p, i, l);
      assert InGrid(p, At(p, i, j).pos) && InGrid(p, At(p, i, l).pos);
      var a, b := p.pages[i].buttons[j].pos, p.pages[i].buttons[l].pos;
      assert a != b;
      CellBounds(p.grid.cols, p.grid.rows, a.col, a.row, b.col, b.row);
    }
    Pigeonhole(cells, p.grid.rows * p.grid.cols);
  }
}
