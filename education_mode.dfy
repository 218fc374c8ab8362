/** The lesson navigator of the education mode: the topic grid, the lesson
    pages of the selected topic, and the set of topics finished so far. */
module EducationMode {
  import opened Wrappers
  import opened Rounding

  /** A topic of the educational catalogue with its lessons' titles. */
  datatype Topic = Topic(id: string, title: string, lessons: seq<string>)

  /** The catalogue of the education mode, lessons by title. */
  const Catalogue: seq<Topic> := [
    Topic("orbital-mechanics", "Orbital Mechanics Basics",
          ["What is Delta-V (ΔV)?", "Hyperbolic Trajectories", "Launch Windows"]),
    Topic("propulsion-systems", "Spacecraft Propulsion",
          ["Chemical Rockets", "Ion Drives", "Nuclear Thermal Propulsion", "Solar Sails"]),
    Topic("mission-planning", "Mission Planning & Strategy",
          ["Trajectory Optimization", "Gravity Assists", "Risk Assessment"]),
    Topic("real-missions", "Real Space Missions",
          ["Voyager 1 & 2", "New Horizons", "Parker Solar Probe", "Breakthrough Starshot"])
  ]

  /** Every topic of the catalogue has lessons and no two share an id. */
  lemma CatalogueWellFormed()
    ensures forall t :: t in Catalogue ==> |t.lessons| > 0
    ensures forall i, j :: 0 <= i < j < |Catalogue| ==> Catalogue[i].id != Catalogue[j].id
  {
  }

  /** So the catalogue has four distinct ids, and completing all four topics
      reads 100%. */
  lemma CatalogueIdCount()
    ensures |TopicIds(Catalogue)| == 4
  {
    CatalogueWellFormed();
    DistinctIdsCount(Catalogue);
  }

  /** The ids of the topics in the catalogue. */
  function TopicIds(topics: seq<Topic>): (ids: set<string>)
    ensures |ids| <= |topics|
    ensures forall t :: t in topics ==> t.id in ids
    decreases |topics|
  {
    if topics == [] then {}
    else
      var rest := TopicIds(topics[1..]);
      assert forall t :: t in topics ==> t == topics[0] || t in topics[1..];
      {topics[0].id} + rest
  }

  /** Completed ids drawn from the catalogue are at most as many as its topics. */
  lemma {:induction false} CompletedBound(completed: set<string>, ids: set<string>)
    requires completed <= ids
    ensures |completed| <= |ids|
    decreases ids
  {
    if completed != {} {
      var x :| x in completed;
      CompletedBound(completed - {x}, ids - {x});
    }
  }

  class Navigator {
    /** `educationalContent`. */
    const topics: seq<Topic>
    /** `selectedTopic`; `None` shows the topic grid. */
    var selected: Option<Topic>
    /** `currentLessonIndex`. */
    var index: int
    /** `completedTopics`. */
    var completed: set<string>

    /** A selected topic is one of the catalogue's, and the index points at
        one of its lessons; with nothing selected the index is 0; only
        catalogue topics are ever marked completed; every topic has lessons. */
    ghost predicate Valid()
      reads this
    {
      (forall t :: t in topics ==> |t.lessons| > 0) &&
      (selected.Some? ==> selected.value in topics && 0 <= index < |selected.value.lessons|) &&
      (selected.None? ==> index == 0) &&
      completed <= TopicIds(topics)
    }

    constructor (catalogue: seq<Topic>)
      requires forall t :: t in catalogue ==> |t.lessons| > 0
      ensures Valid()
      ensures topics == catalogue && selected == None && index == 0 && completed == {}
    {
      topics := catalogue;
      selected := None;
      index := 0;
      completed := {};
    }

    /** `isFirst`. */
    predicate IsFirst()
      reads this
      requires Valid() && selected.Some?
    {
      index == 0
    }

    /** `isLast`. */
    predicate IsLast()
      reads this
      requires Valid() && selected.Some?
    {
      index == |selected.value.lessons| - 1
    }

    /** On a one-lesson topic the only lesson is both the first and the last. */
    lemma SingleLesson()
      requires Valid() && selected.Some? && |selected.value.lessons| == 1
      ensures IsFirst() && IsLast()
    {
    }

    /** `handleTopicSelect`: open a topic at its first lesson. */
    method SelectTopic(t: Topic)
      requires Valid() && t in topics
      modifies this
      ensures Valid()
      ensures selected == Some(t) && index == 0 && IsFirst()
      ensures completed == old(completed)
    {
      selected := Some(t);
      index := 0;
    }

    /** `handleNextLesson`: the next lesson, or, on the last one, mark the
        topic completed and return to the grid. */
    method NextLesson()
      requires Valid()
      modifies this
      ensures Valid()
      ensures old(completed) <= completed
      ensures old(selected).None? ==> selected == None && index == old(index) && completed == old(completed)
      ensures old(selected).Some? && !old(IsLast()) ==>
                selected == old(selected) && index == old(index) + 1 && completed == old(completed)
      ensures old(selected).Some? && old(IsLast()) ==>
                selected == None && index == 0 && completed == old(completed) + {old(selected).value.id}
    {
      if selected.Some? && index < |selected.value.lessons| - 1 {
        index := index + 1;
      } else if selected.Some? {
        completed := completed + {selected.value.id};
        selected := None;
        index := 0;
      }
    }

    /** `handlePrevLesson`: the previous lesson; nothing on the first. */
    method PrevLesson()
      requires Valid()
      modifies this
      ensures Valid()
      ensures selected == old(selected) && completed == old(completed)
      ensures old(index) > 0 ==> index == old(index) - 1
      ensures old(index) == 0 ==> index == 0
      ensures old(selected).Some? && old(IsFirst()) ==> index == old(index)
    {
      if index > 0 {
        index := index - 1;
      }
    }

    /** `handleBackToTopics`: leave the topic without completing it. */
    method BackToTopics()
      requires Valid()
      modifies this
      ensures Valid()
      ensures selected == None && index == 0 && completed == old(completed)
    {
      selected := None;
      index := 0;
    }

    /** The progress figure: completed topics as a whole percentage of the
        catalogue; `None` where an empty catalogue would make it `NaN`. */
    function Progress(): (p: Option<int>)
      reads this
      requires Valid()
      ensures p.None? <==> topics == []
      ensures p.Some? ==> 0 <= p.value <= 100
      ensures p.Some? && completed == {} ==> p.value == 0
    {
      if topics == [] then None
      else
        CompletedBound(completed, TopicIds(topics));
        Some(Percentage(|completed|, |topics|))
    }

    /** Once every topic of a catalogue with distinct ids is completed, the
        progress reads 100. */
    lemma FullProgress()
      requires Valid() && topics != []
      requires forall i, j :: 0 <= i < j < |topics| ==> topics[i].id != topics[j].id
      requires completed == TopicIds(topics)
      ensures Progress() == Some(100)
    {
      DistinctIdsCount(topics);
    }
  }

  /** Distinct ids: as many ids as topics. */
  lemma {:induction false} DistinctIdsCount(topics: seq<Topic>)
    requires forall i, j :: 0 <= i < j < |topics| ==> topics[i].id != topics[j].id
    ensures |TopicIds(topics)| == |topics|
    decreases |topics|
  {
    if topics != [] {
      var rest := topics[1..];
      assert forall i, j :: 0 <= i < j < |rest| ==> rest[i].id != rest[j].id by {
        forall i, j | 0 <= i < j < |rest| ensures rest[i].id != rest[j].id {
          assert rest[i] == topics[i + 1] && rest[j] == topics[j + 1];
        }
      }
      DistinctIdsCount(rest);
      IdAbsent(rest, topics[0].id);
    }
  }

  /** An id no topic carries is not among the ids. */
  lemma {:induction false} IdAbsent(topics: seq<Topic>, id: string)
    requires forall i :: 0 <= i < |topics| ==> topics[i].id != id
    ensures id !in TopicIds(topics)
    decreases |topics|
  {
    if topics != [] {
      IdAbsent(topics[1..], id);
    }
  }
}
