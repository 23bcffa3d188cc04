/**
 * The education entry of the resume page: the specialisations a visitor ticks and the
 * duplicate-free list of courses shown for them.
 */
module CourseworkSelection {
  import opened JsArray

  /** The labels of the eight specialisations, one checkbox each. */
  const CourseworkOptions: seq<string> := [
    "Backend/Systems", "Front-End/UI", "Full-Stack", "Mobile", "AI/ML", "Data Engineering",
    "DevOps/Cloud/Site-Reliability", "Security-Focused"
  ]

  /** The courses of each specialisation, indexed like `CourseworkOptions`. */
  const Coursework: seq<seq<string>> := [
    ["Algorithms", "Data Structures", "Operating Systems", "Computer Architecture",
     "Compiler Design", "Database Systems", "Software Engineering", "Security for ML"],
    ["Programming in Java", "Full-Stack Web Dev", "Software Craftsmanship",
     "Digital Image Processing", "Natural Language Processing"],
    ["Data Structures", "Algorithms", "Full-Stack Web Dev", "Database Systems",
     "Software Engineering", "Operating Systems", "Machine Learning"],
    ["Programming in C/C++", "Data Structures", "Operating Systems", "Full-Stack Web Dev",
     "Software Craftsmanship", "Computer Vision"],
    ["Machine Learning", "Deep Generative Models", "AI for Sequential Decision-Making",
     "Probabilistic Graphical Models", "Natural Language Processing", "Computer Vision",
     "Causality & ML", "Security for ML"],
    ["Algorithms", "Database Systems", "ML on Graphs", "Graph Theory", "Probability",
     "Operating Systems", "Software Engineering", "Linear Alg & Numerical Analysis"],
    ["Operating Systems", "Computer Architecture", "Algorithms", "Database Systems",
     "Software Engineering", "Security for ML", "Full-Stack Web Dev"],
    ["Security for ML", "Operating Systems", "Compiler Design", "Algorithms",
     "Computer Architecture", "Database Systems", "Probability"]
  ]

  /** The specialisations ticked when the page first renders. */
  const InitialSelection: seq<int> := [1, 2, 4, 6]

  /** Every selected option names one of the specialisations. */
  predicate InRange(selected: seq<int>)
  {
    forall k :: 0 <= k < |selected| ==> 0 <= selected[k] < |Coursework|
  }

  /** `selected.flatMap(option => coursework[option])`. */
  function FlatMap(selected: seq<int>): (r: seq<string>)
    requires InRange(selected)
    decreases |selected|
  {
    if |selected| == 0 then []
    else FlatMap(selected[..|selected| - 1]) + Coursework[selected[|selected| - 1]]
  }

  /** A course occurs in the flat map exactly when one of the selected specialisations lists it. */
  lemma {:induction false} FlatMapMembers(selected: seq<int>, c: string)
    requires InRange(selected)
    ensures c in FlatMap(selected) <==> exists k :: 0 <= k < |selected| && c in Coursework[selected[k]]
    decreases |selected|
  {
    if |selected| > 0 {
      var p := selected[..|selected| - 1];
      FlatMapMembers(p, c);
      if exists k :: 0 <= k < |selected| && c in Coursework[selected[k]] {
        var k :| 0 <= k < |selected| && c in Coursework[selected[k]];
        if k < |p| {
          assert selected[k] == p[k];
        }
      }
      if c in FlatMap(p) {
        var k :| 0 <= k < |p| && c in Coursework[p[k]];
        assert selected[k] == p[k];
      }
    }
  }

  /** `[...new Set(selectedOptions.flatMap(option => coursework[option]))]`. */
  function SelectedCourses(selected: seq<int>): (r: seq<string>)
    requires InRange(selected)
    ensures NoDuplicates(r)
  {
    Dedup(FlatMap(selected))
  }

  /**
   * A course is shown exactly when a selected specialisation lists it, and the courses come in
   * the order of their first occurrence in the flat map.
   */
  lemma SelectedCoursesExactly(selected: seq<int>, c: string)
    requires InRange(selected)
    ensures c in SelectedCourses(selected) <==> exists k :: 0 <= k < |selected| && c in Coursework[selected[k]]
    ensures forall i, j :: 0 <= i < j < |SelectedCourses(selected)| ==>
              IndexOf(FlatMap(selected), SelectedCourses(selected)[i]) < IndexOf(FlatMap(selected), SelectedCourses(selected)[j])
  {
    FlatMapMembers(selected, c);
    var f := FlatMap(selected);
    var r := Dedup(f);
    if c in r {
      var i :| 0 <= i < |r| && r[i] == c;
    }
    if c in f {
      var i :| 0 <= i < |f| && f[i] == c;
    }
    DedupFirstOccurrenceOrder(f);
  }

  /** Every specialisation lists at least one course. */
  lemma EveryOptionHasCourses(option: int)
    requires 0 <= option < |Coursework|
    ensures |Coursework[option]| > 0
  {
  }

  /** The course line is rendered (`selectedCourses.length > 0`) exactly when some specialisation is ticked. */
  lemma CourseLineShownIffSelected(selected: seq<int>)
    requires InRange(selected)
    ensures |SelectedCourses(selected)| > 0 <==> |selected| > 0
  {
    if |selected| > 0 {
      EveryOptionHasCourses(selected[0]);
      var c := Coursework[selected[0]][0];
      SelectedCoursesExactly(selected, c);
    } else {
      assert FlatMap(selected) == [];
    }
  }

  /** The initial selection names real specialisations, so its course line is shown. */
  lemma InitialSelectionShown()
    ensures InRange(InitialSelection)
    ensures |SelectedCourses(InitialSelection)| > 0
  {
    CourseLineShownIffSelected(InitialSelection);
  }

  /** The checkbox `onChange`: ticking appends the index, unticking filters out every copy of it. */
  function Toggle(prev: seq<int>, index: int, checked: bool): (r: seq<int>)
    ensures checked ==> |r| == |prev| + 1 && r[..|prev|] == prev && r[|prev|] == index
    ensures !checked ==> index !in r && forall i :: 0 <= i < |r| ==> r[i] in prev
    ensures !checked ==> forall i :: 0 <= i < |prev| && prev[i] != index ==> multiset(r)[prev[i]] == multiset(prev)[prev[i]]
  {
    if checked then prev + [index] else Remove(prev, index)
  }

  /** Unticking keeps the other entries in their relative order: the entries before and after are filtered separately. */
  lemma UntickKeepsOrder(a: seq<int>, b: seq<int>, index: int)
    ensures Toggle(a + [index] + b, index, false) == Toggle(a, index, false) + Toggle(b, index, false)
  {
    RemoveAppend(a + [index], b, index);
    RemoveAppend(a, [index], index);
    assert Remove([index], index) == [] by {
      assert [index][..0] == [];
    }
  }

  /** Ticking a box that was not ticked and then unticking it gives back the selection. */
  lemma TickUntickRoundTrip(prev: seq<int>, index: int)
    requires index !in prev
    ensures Toggle(Toggle(prev, index, true), index, false) == prev
  {
    RemoveAppend(prev, [index], index);
    RemoveAbsent(prev, index);
    assert Remove([index], index) == [] by {
      assert [index][..0] == [];
    }
  }

  /** A checkbox carries the index of its label, so toggling keeps every option in range. */
  lemma ToggleKeepsRange(prev: seq<int>, index: int, checked: bool)
    requires InRange(prev) && 0 <= index < |CourseworkOptions|
    ensures InRange(Toggle(prev, index, checked))
  {
    var r := Toggle(prev, index, checked);
    if !checked {
      forall k | 0 <= k < |r| ensures 0 <= r[k] < |Coursework| {
        assert r[k] in prev;
      }
    }
  }
}
