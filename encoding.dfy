/**
 * The feature-vector encoder of the insurance-cost form (Sessions/Day12/app.py,
 * function `home`): six applicant attributes become a nine-entry vector laid out
 * as age, sex, bmi, children, smoker, northeast, northwest, southeast, southwest.
 * Numeric attributes are already-parsed numbers; categorical attributes become
 * 0/1 flags by exact string comparison.
 */
module FeatureEncoding {

  /** The six attributes of an applicant after the numeric fields were parsed. */
  datatype Applicant = Applicant(
    age: real,
    sex: string,
    bmi: real,
    children: real,
    smoker: string,
    region: string)

  /** Positions of the vector entries. */
  const AgeAt: nat := 0
  const SexAt: nat := 1
  const BmiAt: nat := 2
  const ChildrenAt: nat := 3
  const SmokerAt: nat := 4
  const RegionsAt: nat := 5
  const Width: nat := 9

  /** The region names, in the order of their flags in the vector. */
  const Regions: seq<string> := ["northeast", "northwest", "southeast", "southwest"]

  /** A 0/1 indicator. */
  function Flag(b: bool): (r: real)
    ensures r == 0.0 || r == 1.0
    ensures r == 1.0 <==> b
  {
    if b then 1.0 else 0.0
  }

  predicate IsFlag(x: real) {
    x == 0.0 || x == 1.0
  }

  /** The number of entries of `flags` that are set. */
  function Ones(flags: seq<real>): nat {
    if flags == [] then 0 else (if flags[0] == 1.0 then 1 else 0) + Ones(flags[1..])
  }

  ghost predicate Distinct(s: seq<string>) {
    forall i, j :: 0 <= i < j < |s| ==> s[i] != s[j]
  }

  /** The sex flag: set exactly for the literal "male". */
  function SexFlag(sex: string): (r: real)
    ensures IsFlag(r)
    ensures r == 1.0 <==> sex == "male"
    ensures r == 0.0 <==> sex != "male"
  {
    Flag(sex == "male")
  }

  /** The smoker flag: set exactly for the literal "yes". */
  function SmokerFlag(smoker: string): (r: real)
    ensures IsFlag(r)
    ensures r == 1.0 <==> smoker == "yes"
    ensures r == 0.0 <==> smoker != "yes"
  {
    Flag(smoker == "yes")
  }

  /**
   * Reference definition of one-hot encoding: one flag per category, in the
   * order of `categories`, set where the category equals `value`.
   */
  function OneHot(categories: seq<string>, value: string): (flags: seq<real>)
    ensures |flags| == |categories|
    ensures forall i :: 0 <= i < |categories| ==> (flags[i] == 1.0 <==> categories[i] == value)
    ensures forall i :: 0 <= i < |categories| ==> IsFlag(flags[i])
  {
    if categories == [] then []
    else [Flag(categories[0] == value)] + OneHot(categories[1..], value)
  }

  /** With pairwise distinct categories, a one-hot vector has one flag set if the value is a category and none otherwise. */
  lemma {:induction false} OneHotOnes(categories: seq<string>, value: string)
    requires Distinct(categories)
    ensures Ones(OneHot(categories, value)) == if value in categories then 1 else 0
  {
    if categories != [] {
      var tail := categories[1..];
      assert Distinct(tail) by {
        forall i, j | 0 <= i < j < |tail| ensures tail[i] != tail[j] {
          assert tail[i] == categories[i + 1] && tail[j] == categories[j + 1];
        }
      }
      OneHotOnes(tail, value);
      var flags := OneHot(categories, value);
      assert flags[1..] == OneHot(tail, value);
      assert value in categories <==> categories[0] == value || value in tail by {
        assert categories == [categories[0]] + tail;
      }
      if categories[0] == value {
        assert value !in tail by {
          forall j | 0 <= j < |tail| ensures tail[j] != value {
            assert tail[j] == categories[j + 1];
          }
        }
      }
    }
  }

  /** The four region flags, each an exact comparison against one region name. */
  function RegionFlags(region: string): (flags: seq<real>)
    ensures |flags| == |Regions|
    ensures flags == OneHot(Regions, region)
    ensures Ones(flags) == if region in Regions then 1 else 0
  {
    var flags := [
      Flag(region == "northeast"),
      Flag(region == "northwest"),
      Flag(region == "southeast"),
      Flag(region == "southwest")];
    RegionsDistinct();
    OneHotOnes(Regions, region);
    flags
  }

  lemma RegionsDistinct()
    ensures Distinct(Regions)
  {
  }

  /** Two regions get the same flags exactly when they are equal or both unrecognised. */
  lemma RegionFlagsSeparate(a: string, b: string)
    ensures RegionFlags(a) == RegionFlags(b) <==> a == b || (a !in Regions && b !in Regions)
  {
  }

  /** The shape every encoded vector has: nine entries, binary flags, at most one region set. */
  predicate IsFeatureVector(v: seq<real>) {
    && |v| == Width
    && IsFlag(v[SexAt]) && IsFlag(v[SmokerAt])
    && (forall i :: RegionsAt <= i < Width ==> IsFlag(v[i]))
    && Ones(v[RegionsAt..]) <= 1
  }

  /** The feature vector of an applicant, in the layout the regression model was trained on. */
  function Encode(a: Applicant): (v: seq<real>)
    ensures IsFeatureVector(v)
    ensures v[AgeAt] == a.age && v[BmiAt] == a.bmi && v[ChildrenAt] == a.children
    ensures v[SexAt] == 1.0 <==> a.sex == "male"
    ensures v[SmokerAt] == 1.0 <==> a.smoker == "yes"
    ensures forall i :: 0 <= i < |Regions| ==> (v[RegionsAt + i] == 1.0 <==> a.region == Regions[i])
    ensures Ones(v[RegionsAt..]) == if a.region in Regions then 1 else 0
  {
    var regions := RegionFlags(a.region);
    var v := [a.age, SexFlag(a.sex), a.bmi, a.children, SmokerFlag(a.smoker),
              regions[0], regions[1], regions[2], regions[3]];
    assert v[RegionsAt..] == regions;
    v
  }

  /** No two region flags are set together. */
  lemma RegionFlagsExclusive(a: Applicant, i: nat, j: nat)
    requires RegionsAt <= i < j < Width
    ensures !(Encode(a)[i] == 1.0 && Encode(a)[j] == 1.0)
  {
  }

  /**
   * What the encoding keeps: two applicants get the same vector exactly when
   * their numbers agree, they agree on being "male" and on being "yes" smokers,
   * and their regions are equal or both unrecognised.
   */
  lemma EncodeSeparates(a: Applicant, b: Applicant)
    ensures Encode(a) == Encode(b) <==>
      && a.age == b.age && a.bmi == b.bmi && a.children == b.children
      && (a.sex == "male" <==> b.sex == "male")
      && (a.smoker == "yes" <==> b.smoker == "yes")
      && (a.region == b.region || (a.region !in Regions && b.region !in Regions))
  {
  }

  /** The worked example: a 30-year-old male non-smoker from the southeast. */
  lemma ExampleEncoding()
    ensures Encode(Applicant(30.0, "male", 25.0, 2.0, "no", "southeast"))
      == [30.0, 1.0, 25.0, 2.0, 0.0, 0.0, 0.0, 1.0, 0.0]
  {
  }
}
