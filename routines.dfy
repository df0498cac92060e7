/**
 * The routine record both components receive from the store, and the split of the
 * routine list into the morning, afternoon and evening sections both of them render.
 */
module Routines {
  import opened Wrappers
  import opened Seqs

  datatype Category = Morning | Afternoon | Evening

  /** One entry of a progressive routine's plan: `{week, duration, description}`. */
  datatype ProgressionStep = ProgressionStep(week: nat, duration: nat, description: string)

  /** A habit with its daily state; optional fields of the TypeScript type are `Option`s. */
  datatype Routine = Routine(
    id: string,
    title: string,
    description: string,
    category: Category,
    icon: string,
    color: string,
    duration: nat,
    frequency: Option<string>,
    completed: bool,
    streak: nat,
    week: nat,
    maxWeeks: nat,
    isProgressive: bool,
    progressionSteps: seq<ProgressionStep>,
    inputValue: Option<string>,
    scheduledTime: Option<string>,
    notificationsEnabled: Option<bool>)

  /** The test `r => r.category === c`. */
  function InSection(c: Category): Routine -> bool
  {
    (r: Routine) => r.category == c
  }

  /** `routines.filter(r => r.category === c)`: exactly the routines of section `c`. */
  function ByCategory(rs: seq<Routine>, c: Category): (s: seq<Routine>)
    ensures |s| <= |rs|
    ensures forall r :: r in s <==> r in rs && r.category == c
  {
    Filter(InSection(c), rs)
  }

  /** The three sections hold every routine exactly once: their sizes add up to the list's. */
  lemma {:induction false} SectionsPartition(rs: seq<Routine>)
    ensures |ByCategory(rs, Morning)| + |ByCategory(rs, Afternoon)| + |ByCategory(rs, Evening)| == |rs|
  {
    if rs != [] {
      SectionsPartition(rs[1..]);
    }
  }

  /** A sum over the routines equals the sum of the sums over the three sections. */
  lemma {:induction false} SumBySection(f: Routine -> nat, rs: seq<Routine>)
    ensures Sum(f, rs) == Sum(f, ByCategory(rs, Morning)) + Sum(f, ByCategory(rs, Afternoon)) + Sum(f, ByCategory(rs, Evening))
  {
    if rs != [] {
      SumBySection(f, rs[1..]);
      var x, t := rs[0], rs[1..];
      forall c: Category
        ensures Sum(f, ByCategory(rs, c)) == (if x.category == c then f(x) else 0) + Sum(f, ByCategory(t, c))
      {
        if x.category == c {
          assert ByCategory(rs, c) == [x] + ByCategory(t, c);
          assert ([x] + ByCategory(t, c))[1..] == ByCategory(t, c);
        } else {
          assert ByCategory(rs, c) == ByCategory(t, c);
        }
      }
    }
  }

  /** Each section lists its routines in the order of the full list. */
  lemma SectionKeepsOrder(a: seq<Routine>, b: seq<Routine>, c: Category)
    ensures ByCategory(a + b, c) == ByCategory(a, c) + ByCategory(b, c)
  {
    FilterConcat(InSection(c), a, b);
  }
}
