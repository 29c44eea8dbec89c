/** The instructor-application approval page (src/app/admin/instructors/page.tsx). */
module AdminInstructors {
  import opened Wrappers
  import opened Lists
  import opened AdminCommon
  import Config

  /** One listed application; `applicant*` are the joined `user.name` / `user.email`. */
  datatype ApplicationRow = ApplicationRow(
    id: string, applicantName: Option<string>, applicantEmail: Option<string>,
    intro: string, career: string, certificate: string, fields: seq<string>,
    motivation: string, contact: string, status: string)

  function NotId(id: string): ApplicationRow -> bool
  {
    (app: ApplicationRow) => app.id != id
  }

  /** The list after acting on `id`: `apps.filter(app => app._id !== id)`. */
  function WithoutApplication(apps: seq<ApplicationRow>, id: string): (r: seq<ApplicationRow>)
    ensures |r| <= |apps|
    ensures forall x :: x in r <==> x in apps && x.id != id
  {
    Filter(apps, NotId(id))
  }

  /** After acting on `id` no row has that id, every other row stays, with its number of
      occurrences, and acting on the same id again changes nothing. */
  lemma ActionRemovesExactlyThatId(apps: seq<ApplicationRow>, id: string)
    ensures forall a :: a in WithoutApplication(apps, id) ==> a.id != id
    ensures forall a: ApplicationRow :: a.id != id ==> multiset(WithoutApplication(apps, id))[a] == multiset(apps)[a]
    ensures WithoutApplication(WithoutApplication(apps, id), id) == WithoutApplication(apps, id)
  {
    forall a: ApplicationRow | a.id != id ensures multiset(WithoutApplication(apps, id))[a] == multiset(apps)[a] {
      FilterCounts(apps, NotId(id), a);
    }
    FilterIdempotent(apps, NotId(id));
  }

  /** Removal keeps the original order: removing from a concatenation removes from each part. */
  lemma ActionKeepsOrder(front: seq<ApplicationRow>, back: seq<ApplicationRow>, id: string)
    ensures WithoutApplication(front + back, id) == WithoutApplication(front, id) + WithoutApplication(back, id)
  {
    FilterAppend(front, back, NotId(id));
  }

  /** The URL `handleAction` posts to. */
  function ActionUrl(id: string, action: Action): (r: string)
    ensures ProductionApi <= r
    ensures |r| >= |ActionName(action)| && r[|r| - |ActionName(action)|..] == ActionName(action)
  {
    ProductionApi + "/api/admin/instructor-applications/" + id + "/" + ActionName(action)
  }

  /** The page posts to the route the config table names, on the production host. */
  lemma ActionUrlMatchesConfig(id: string)
    ensures ActionUrl(id, Approve)[|ProductionApi|..] == Config.InstructorApproveUrl(id)[|Config.ApiUrl|..]
    ensures ActionUrl(id, Reject)[|ProductionApi|..] == Config.InstructorRejectUrl(id)[|Config.ApiUrl|..]
  {
    var route := "/api/admin/instructor-applications/" + id;
    assert ActionUrl(id, Approve) == ProductionApi + (route + "/approve");
    assert ActionUrl(id, Reject) == ProductionApi + (route + "/reject");
    assert Config.InstructorApproveUrl(id) == Config.ApiUrl + (route + "/approve");
    assert Config.InstructorRejectUrl(id) == Config.ApiUrl + (route + "/reject");
  }

  /** The page's React state and the requests it has posted. */
  class ApplicationsPage {
    var applications: seq<ApplicationRow>
    var error: string
    var posted: seq<string>

    constructor (loaded: seq<ApplicationRow>)
      ensures applications == loaded && error == "" && posted == []
    {
      applications, error, posted := loaded, "", [];
    }

    /** `handleAction`: posts the action, then drops the row whatever the reply status.
        Approve and reject change the list alike. When `fetch` throws (`threw`) the
        handler has no `catch`, so the list is left as it was. */
    method HandleAction(id: string, action: Action, threw: bool)
      modifies this
      ensures posted == old(posted) + [ActionUrl(id, action)] && error == old(error)
      ensures applications == if threw then old(applications) else WithoutApplication(old(applications), id)
    {
      posted := posted + [ActionUrl(id, action)];
      if !threw {
        applications := WithoutApplication(applications, id);
      }
    }
  }
}
