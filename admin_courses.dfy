/** The course approval page (src/app/admin/courses/page.tsx). */
module AdminCourses {
  import opened Wrappers
  import opened Lists
  import opened AdminCommon
  import Config

  /** One listed course; `instructorName` is the joined `instructorId.name`. */
  datatype CourseRow = CourseRow(
    id: string, title: string, description: string, instructorName: Option<string>, status: string)

  function NotId(id: string): CourseRow -> bool
  {
    (course: CourseRow) => course.id != id
  }

  /** The list after acting on `id`: `courses.filter(course => course._id !== id)`. */
  function WithoutCourse(courses: seq<CourseRow>, id: string): (r: seq<CourseRow>)
    ensures |r| <= |courses|
    ensures forall x :: x in r <==> x in courses && x.id != id
  {
    Filter(courses, NotId(id))
  }

  /** After acting on `id` no course has that id, every other course stays, with its number
      of occurrences, and acting on the same id again changes nothing. */
  lemma ActionRemovesExactlyThatId(courses: seq<CourseRow>, id: string)
    ensures forall c :: c in WithoutCourse(courses, id) ==> c.id != id
    ensures forall c: CourseRow :: c.id != id ==> multiset(WithoutCourse(courses, id))[c] == multiset(courses)[c]
    ensures WithoutCourse(WithoutCourse(courses, id), id) == WithoutCourse(courses, id)
  {
    forall c: CourseRow | c.id != id ensures multiset(WithoutCourse(courses, id))[c] == multiset(courses)[c] {
      FilterCounts(courses, NotId(id), c);
    }
    FilterIdempotent(courses, NotId(id));
  }

  /** Removal keeps the original order: removing from a concatenation removes from each part. */
  lemma ActionKeepsOrder(front: seq<CourseRow>, back: seq<CourseRow>, id: string)
    ensures WithoutCourse(front + back, id) == WithoutCourse(front, id) + WithoutCourse(back, id)
  {
    FilterAppend(front, back, NotId(id));
  }

  /** The URL `handleAction` posts to. */
  function ActionUrl(id: string, action: Action): (r: string)
    ensures ProductionApi <= r
    ensures |r| >= |ActionName(action)| && r[|r| - |ActionName(action)|..] == ActionName(action)
  {
    ProductionApi + "/api/admin/courses/" + id + "/" + ActionName(action)
  }

  /** The page posts to the route the config table names, on the production host. */
  lemma ActionUrlMatchesConfig(id: string)
    ensures ActionUrl(id, Approve)[|ProductionApi|..] == Config.CourseApproveUrl(id)[|Config.ApiUrl|..]
    ensures ActionUrl(id, Reject)[|ProductionApi|..] == Config.CourseRejectUrl(id)[|Config.ApiUrl|..]
  {
    var route := "/api/admin/courses/" + id;
    assert ActionUrl(id, Approve) == ProductionApi + (route + "/approve");
    assert ActionUrl(id, Reject) == ProductionApi + (route + "/reject");
    assert Config.CourseApproveUrl(id) == Config.ApiUrl + (route + "/approve");
    assert Config.CourseRejectUrl(id) == Config.ApiUrl + (route + "/reject");
  }

  /** The page's React state and the requests it has posted. */
  class CoursesPage {
    var courses: seq<CourseRow>
    var error: string
    var posted: seq<string>

    constructor (loaded: seq<CourseRow>)
      ensures courses == loaded && error == "" && posted == []
    {
      courses, error, posted := loaded, "", [];
    }

    /** `handleAction`: posts the action, then drops the course whatever the reply status.
        Approve and reject change the list alike. When `fetch` throws (`threw`) the
        handler has no `catch`, so the list is left as it was. */
    method HandleAction(id: string, action: Action, threw: bool)
      modifies this
      ensures posted == old(posted) + [ActionUrl(id, action)] && error == old(error)
      ensures courses == if threw then old(courses) else WithoutCourse(old(courses), id)
    {
      posted := posted + [ActionUrl(id, action)];
      if !threw {
        courses := WithoutCourse(courses, id);
      }
    }
  }
}
