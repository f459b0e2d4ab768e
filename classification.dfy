/**
  The glycemic status of an HbA1c percentage, by the ADA 2024 cutoffs:
  below 5.7 normal, from 5.7 up to (not including) 6.5 prediabetes,
  6.5 and above diabetes. Each status carries a fixed machine name and a
  fixed human-readable category label.
*/
module Classification {
  import opened PyValues

  datatype GlycemicStatus = Normal | Prediabetes | Diabetes
  {
    /** The `status` string of the response. */
    function Name(): string
    {
      match this
      case Normal => "normal"
      case Prediabetes => "prediabetes"
      case Diabetes => "diabetes"
    }

    /** The `category` label of the response. */
    function Category(): string
    {
      match this
      case Normal => "Normal (<5.7%)"
      case Prediabetes => "Prediabetes (5.7\U{2013}6.4%)"
      case Diabetes => "Diabetes (\U{2265}6.5%)"
    }

    /** Severity: normal 0, prediabetes 1, diabetes 2. */
    function Rank(): nat
    {
      match this
      case Normal => 0
      case Prediabetes => 1
      case Diabetes => 2
    }
  }

  /** The ADA lower bound of prediabetes. */
  const PrediabetesCutoff: real := 5.7
  /** The ADA lower bound of diabetes. */
  const DiabetesCutoff: real := 6.5

  /** The handler's if / elif / else on the converted value. A NaN fails both
      comparisons and so lands in the final `else`. */
  function Classify(v: Float): (s: GlycemicStatus)
    ensures s == Normal <==> Less(v, PrediabetesCutoff)
    ensures s == Prediabetes <==> AtLeast(v, PrediabetesCutoff) && Less(v, DiabetesCutoff)
    ensures s == Diabetes <==> AtLeast(v, DiabetesCutoff) || v.NaN?
  {
    if Less(v, PrediabetesCutoff) then Normal
    else if AtLeast(v, PrediabetesCutoff) && Less(v, DiabetesCutoff) then Prediabetes
    else Diabetes
  }

  /** For a finite value the three bands are the three half-open intervals
      of the real line, and every real falls in exactly one. */
  lemma FiniteBands(r: real)
    ensures Classify(Finite(r)) == Normal <==> r < 5.7
    ensures Classify(Finite(r)) == Prediabetes <==> 5.7 <= r < 6.5
    ensures Classify(Finite(r)) == Diabetes <==> 6.5 <= r
  {
  }

  /** The cutoffs themselves belong to the higher band. */
  lemma BoundariesExact()
    ensures Classify(Finite(5.7)) == Prediabetes
    ensures Classify(Finite(6.5)) == Diabetes
    ensures Classify(Finite(5.6999)) == Normal
    ensures Classify(Finite(6.4999)) == Prediabetes
  {
  }

  /** The infinities and NaN: -inf is normal, +inf and NaN are diabetes. */
  lemma NonFiniteValues()
    ensures Classify(NegInf) == Normal
    ensures Classify(PosInf) == Diabetes
    ensures Classify(NaN) == Diabetes
  {
  }

  /** No band is empty: each status is the classification of some finite
      value, so the handler can produce every one of them. */
  lemma EveryStatusOccurs(s: GlycemicStatus)
    ensures exists r: real :: Classify(Finite(r)) == s
  {
    match s
    case Normal => assert Classify(Finite(5.0)) == s;
    case Prediabetes => assert Classify(Finite(6.0)) == s;
    case Diabetes => assert Classify(Finite(7.0)) == s;
  }

  /** A higher value never gets a less severe status (NaN, which is not
      ordered, is excluded). */
  lemma Monotone(a: Float, b: Float)
    requires !a.NaN? && !b.NaN? && Ordered(a, b)
    ensures Classify(a).Rank() <= Classify(b).Rank()
  {
    ComparisonsMonotone(a, b, PrediabetesCutoff);
    ComparisonsMonotone(a, b, DiabetesCutoff);
  }

  /** The number of cutoffs in `cutoffs` that `v` has reached. */
  function Reached(cutoffs: seq<real>, v: Float): nat
  {
    if cutoffs == [] then 0
    else (if AtLeast(v, cutoffs[0]) then 1 else 0) + Reached(cutoffs[1..], v)
  }

  /** An independent reading of the table: the severity of a value is the
      number of ADA cutoffs it has reached. */
  lemma {:induction false} RankCountsCutoffsReached(v: Float)
    requires !v.NaN?
    ensures Classify(v).Rank() == Reached([PrediabetesCutoff, DiabetesCutoff], v)
  {
    var cutoffs := [PrediabetesCutoff, DiabetesCutoff];
    assert cutoffs[1..] == [DiabetesCutoff] && cutoffs[1..][1..] == [];
    assert Reached([DiabetesCutoff], v) == if AtLeast(v, DiabetesCutoff) then 1 else 0;
    LessOrAtLeast(v, PrediabetesCutoff);
    LessOrAtLeast(v, DiabetesCutoff);
  }

  /** Names and labels are distinct, and each label belongs to one status,
      so a response's `status` and `category` always agree. */
  lemma NamesAndLabelsDistinct(s: GlycemicStatus, t: GlycemicStatus)
    ensures s.Name() == t.Name() <==> s == t
    ensures s.Category() == t.Category() <==> s == t
  {
    if s != t {
      assert s.Name()[0] != t.Name()[0];
      assert s.Category()[0] != t.Category()[0];
    }
  }
}
