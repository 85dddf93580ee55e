/** Multi-objective ranking of optimisation cells. */
module Pareto {
  import opened Domain

  /** A float, with its infinities and its not-a-number. */
  datatype Float = NaN | NegInf | Fin(value: real) | PosInf

  /** The order on floats; a comparison with not-a-number is false. */
  predicate Less(x: Float, y: Float) {
    match (x, y)
    case (Fin(a), Fin(b)) => a < b
    case (NegInf, Fin(_)) => true
    case (NegInf, PosInf) => true
    case (Fin(_), PosInf) => true
    case _ => false
  }

  datatype Direction = Maximise | Minimise

  datatype Objective = Objective(metric: string, direction: Direction)

  type Metrics = map<string, Float>

  datatype Cell = Cell(params: map<string, string>, metrics: Metrics)

  function Get(metrics: Metrics, metric: string): Option<Float> {
    if metric in metrics then Some(metrics[metric]) else None
  }

  /** A missing value and a not-a-number both count as the worst value for the direction. */
  function Coerce(value: Option<Float>, direction: Direction): (r: Float)
    ensures r != NaN
    ensures value.None? || value.value == NaN ==> forall x: Float :: !Better(direction, r, x)
  {
    if value.None? || value.value == NaN then
      if direction == Maximise then NegInf else PosInf
    else value.value
  }

  predicate Better(direction: Direction, x: Float, y: Float) {
    if direction == Maximise then Less(y, x) else Less(x, y)
  }

  predicate BetterOn(o: Objective, a: Metrics, b: Metrics) {
    Better(o.direction, Coerce(Get(a, o.metric), o.direction), Coerce(Get(b, o.metric), o.direction))
  }

  /** At least as good on every objective and strictly better on one. */
  ghost predicate Dominates(a: Metrics, b: Metrics, objectives: seq<Objective>) {
    && (forall i :: 0 <= i < |objectives| ==> !BetterOn(objectives[i], b, a))
    && (exists i :: 0 <= i < |objectives| && BetterOn(objectives[i], a, b))
  }

  method CheckDominates(a: Metrics, b: Metrics, objectives: seq<Objective>) returns (dominates: bool)
    ensures dominates <==> Dominates(a, b, objectives)
  {
    var strictlyBetter := false;
    for i := 0 to |objectives|
      invariant forall j :: 0 <= j < i ==> !BetterOn(objectives[j], b, a)
      invariant strictlyBetter <==> exists j :: 0 <= j < i && BetterOn(objectives[j], a, b)
    {
      var o := objectives[i];
      var aVal := Coerce(Get(a, o.metric), o.direction);
      var bVal := Coerce(Get(b, o.metric), o.direction);
      if o.direction == Maximise {
        if Less(aVal, bVal) {
          assert BetterOn(objectives[i], b, a);
          return false;
        }
        if Less(bVal, aVal) {
          assert BetterOn(objectives[i], a, b);
          strictlyBetter := true;
        }
      } else {
        if Less(bVal, aVal) {
          assert BetterOn(objectives[i], b, a);
          return false;
        }
        if Less(aVal, bVal) {
          assert BetterOn(objectives[i], a, b);
          strictlyBetter := true;
        }
      }
    }
    return strictlyBetter;
  }

  /** On metrics that are present and finite, dominance is the comparison of the numbers: nothing lower where
      the objective is maximised, nothing higher where it is minimised, and a difference somewhere. */
  lemma DominatesOnNumbers(a: Metrics, b: Metrics, objectives: seq<Objective>)
    requires forall i :: 0 <= i < |objectives| ==>
      var m := objectives[i].metric;
      m in a && a[m].Fin? && m in b && b[m].Fin?
    ensures Dominates(a, b, objectives) <==>
      && (forall i :: 0 <= i < |objectives| ==>
            var o := objectives[i];
            if o.direction == Maximise then a[o.metric].value >= b[o.metric].value
            else a[o.metric].value <= b[o.metric].value)
      && (exists i :: 0 <= i < |objectives| && a[objectives[i].metric].value != b[objectives[i].metric].value)
  {
    hide BetterOn;
    forall i | 0 <= i < |objectives|
      ensures
        var x, y := a[objectives[i].metric].value, b[objectives[i].metric].value;
        && (BetterOn(objectives[i], a, b) <==> if objectives[i].direction == Maximise then x > y else x < y)
        && (BetterOn(objectives[i], b, a) <==> if objectives[i].direction == Maximise then x < y else x > y)
    {
      BetterOnNumbers(objectives[i], a, b);
      BetterOnNumbers(objectives[i], b, a);
    }
  }

  lemma BetterOnNumbers(o: Objective, a: Metrics, b: Metrics)
    requires o.metric in a && a[o.metric].Fin? && o.metric in b && b[o.metric].Fin?
    ensures
      var x, y := a[o.metric].value, b[o.metric].value;
      BetterOn(o, a, b) <==> if o.direction == Maximise then x > y else x < y
  {
  }

  /** A missing metric, or not-a-number, never wins an objective, and loses it to every finite number. */
  lemma MissingIsWorst(o: Objective, a: Metrics, b: Metrics)
    requires o.metric !in a || a[o.metric] == NaN
    ensures !BetterOn(o, a, b)
    ensures o.metric in b && b[o.metric].Fin? ==> BetterOn(o, b, a)
  {
  }

  // ---- Dominance is a strict order ------------------------------------------------------

  /** Coerced values are totally ordered on each objective. */
  lemma BetterOnIsWeakOrder(o: Objective, a: Metrics, b: Metrics, c: Metrics)
    ensures !BetterOn(o, b, a) && !BetterOn(o, c, b) ==> !BetterOn(o, c, a)
    ensures !BetterOn(o, b, a) && !BetterOn(o, c, b) && (BetterOn(o, a, b) || BetterOn(o, b, c)) ==> BetterOn(o, a, c)
  {
  }

  lemma DominatesIsStrictOrder(a: Metrics, b: Metrics, c: Metrics, objectives: seq<Objective>)
    ensures !Dominates(a, a, objectives)
    ensures Dominates(a, b, objectives) && Dominates(b, c, objectives) ==> Dominates(a, c, objectives)
  {
    hide BetterOn;
    forall i | 0 <= i < |objectives| ensures !BetterOn(objectives[i], a, a) {
      Irreflexive(objectives[i], a);
    }
    if Dominates(a, b, objectives) && Dominates(b, c, objectives) {
      forall i | 0 <= i < |objectives| ensures !BetterOn(objectives[i], c, a) {
        BetterOnIsWeakOrder(objectives[i], a, b, c);
      }
      var i :| 0 <= i < |objectives| && BetterOn(objectives[i], a, b);
      BetterOnIsWeakOrder(objectives[i], a, b, c);
    }
  }

  lemma Irreflexive(o: Objective, a: Metrics)
    ensures !BetterOn(o, a, a)
  {
  }

  // ---- The frontier -----------------------------------------------------------------------

  ghost predicate Undominated(cells: seq<Cell>, objectives: seq<Objective>, i: nat)
    requires i < |cells|
  {
    forall j :: 0 <= j < |cells| ==> !Dominates(cells[j].metrics, cells[i].metrics, objectives)
  }

  ghost function Dominators(cells: seq<Cell>, objectives: seq<Objective>, i: nat): set<nat>
    requires i < |cells|
  {
    set j: nat | j < |cells| && Dominates(cells[j].metrics, cells[i].metrics, objectives)
  }

  lemma FewerDominators(cells: seq<Cell>, objectives: seq<Objective>, i: nat, d: nat)
    requires i < |cells| && d in Dominators(cells, objectives, i)
    ensures Dominators(cells, objectives, d) < Dominators(cells, objectives, i)
    ensures |Dominators(cells, objectives, d)| < |Dominators(cells, objectives, i)|
  {
    hide Dominates;
    var above, all := Dominators(cells, objectives, d), Dominators(cells, objectives, i);
    forall j | j in above ensures j in all {
      DominatesIsStrictOrder(cells[j].metrics, cells[d].metrics, cells[i].metrics, objectives);
    }
    DominatesIsStrictOrder(cells[d].metrics, cells[d].metrics, cells[d].metrics, objectives);
    assert d in all && d !in above;
    ProperSubsetSmaller(above, all);
  }

  lemma ProperSubsetSmaller<T>(a: set<T>, b: set<T>)
    requires a < b
    ensures |a| < |b|
  {
    assert b == a + (b - a) && b - a != {};
  }

  /** A dominated cell is dominated by one on the frontier. */
  lemma {:induction false} DominatedByFrontier(cells: seq<Cell>, objectives: seq<Objective>, i: nat) returns (f: nat)
    requires i < |cells| && !Undominated(cells, objectives, i)
    ensures f < |cells| && Undominated(cells, objectives, f)
    ensures Dominates(cells[f].metrics, cells[i].metrics, objectives)
    decreases |Dominators(cells, objectives, i)|
  {
    hide Dominates;
    var d: nat :| d < |cells| && Dominates(cells[d].metrics, cells[i].metrics, objectives);
    if Undominated(cells, objectives, d) {
      f := d;
    } else {
      FewerDominators(cells, objectives, i, d);
      f := DominatedByFrontier(cells, objectives, d);
      DominatesIsStrictOrder(cells[f].metrics, cells[d].metrics, cells[i].metrics, objectives);
    }
  }

  lemma FrontierNotEmpty(cells: seq<Cell>, objectives: seq<Objective>) returns (f: nat)
    requires cells != []
    ensures f < |cells| && Undominated(cells, objectives, f)
  {
    hide Dominates;
    if Undominated(cells, objectives, 0) {
      f := 0;
    } else {
      f := DominatedByFrontier(cells, objectives, 0);
    }
  }

  // ---- Extraction ---------------------------------------------------------------------------

  class ParetoPoint {
    const params: map<string, string>
    const metrics: Metrics
    var isPareto: bool

    constructor (cell: Cell)
      ensures params == cell.params && metrics == cell.metrics && !isPareto
    {
      params, metrics, isPareto := cell.params, cell.metrics, false;
    }
  }

  ghost predicate PointsOf(points: seq<ParetoPoint>, cells: seq<Cell>) {
    && |points| == |cells|
    && (forall i :: 0 <= i < |points| ==> points[i].params == cells[i].params && points[i].metrics == cells[i].metrics)
    && forall i, j :: 0 <= i < j < |points| ==> points[i] != points[j]
  }

  method MakePoints(cells: seq<Cell>) returns (points: seq<ParetoPoint>)
    ensures PointsOf(points, cells)
    ensures forall p :: p in points ==> fresh(p)
  {
    points := [];
    for i := 0 to |cells|
      invariant PointsOf(points, cells[..i])
      invariant forall p :: p in points ==> fresh(p)
    {
      var p := new ParetoPoint(cells[i]);
      points := points + [p];
    }
    assert cells[..|cells|] == cells;
  }

  /** The inner loop: does another cell dominate cell `i`? */
  method IsDominated(points: seq<ParetoPoint>, cells: seq<Cell>, objectives: seq<Objective>, i: nat)
    returns (dominated: bool)
    requires PointsOf(points, cells) && i < |cells|
    ensures dominated <==> !Undominated(cells, objectives, i)
  {
    hide Dominates;
    dominated := false;
    DominatesIsStrictOrder(cells[i].metrics, cells[i].metrics, cells[i].metrics, objectives);
    for j := 0 to |points|
      invariant !dominated
      invariant forall k :: 0 <= k < j ==> !Dominates(cells[k].metrics, cells[i].metrics, objectives)
    {
      if i != j {
        var d := CheckDominates(points[j].metrics, points[i].metrics, objectives);
        if d {
          return true;
        }
      }
    }
  }

  /** None stands for the error raised when there is no objective. Marked are exactly the undominated cells. */
  method ExtractParetoFrontier(cells: seq<Cell>, objectives: seq<Objective>) returns (result: Option<seq<ParetoPoint>>)
    ensures result.None? <==> objectives == []
    ensures result.Some? ==>
      && PointsOf(result.value, cells)
      && forall i :: 0 <= i < |cells| ==> (result.value[i].isPareto <==> Undominated(cells, objectives, i))
    ensures result.Some? && cells != [] ==> exists f :: 0 <= f < |cells| && result.value[f].isPareto
    ensures result.Some? ==> forall i :: 0 <= i < |cells| && !result.value[i].isPareto ==>
      exists f ::
        0 <= f < |cells| && result.value[f].isPareto && Dominates(cells[f].metrics, cells[i].metrics, objectives)
  {
    hide Dominates, Undominated;
    if objectives == [] {
      return None;
    }
    if cells == [] {
      return Some([]);
    }
    var points := MakePoints(cells);
    for i := 0 to |points|
      invariant forall p :: p in points ==> fresh(p)
      invariant forall k :: 0 <= k < i ==> (points[k].isPareto <==> Undominated(cells, objectives, k))
    {
      var dominated := IsDominated(points, cells, objectives, i);
      assert points[i] in points;
      points[i].isPareto := !dominated;
    }
    ghost var best := FrontierNotEmpty(cells, objectives);
    assert points[best].isPareto;
    forall i | 0 <= i < |cells| && !points[i].isPareto
      ensures exists f ::
        0 <= f < |cells| && points[f].isPareto && Dominates(cells[f].metrics, cells[i].metrics, objectives)
    {
      var f := DominatedByFrontier(cells, objectives, i);
      assert points[f].isPareto;
    }
    return Some(points);
  }
}
