/** The admin API URL table (src/config/index.ts). */
module Config {

  const ApiUrl: string := "http://localhost:3000"

  /** The part every admin URL starts with. */
  const AdminBase: string := ApiUrl + "/api/admin/"

  const AdminLoginUrl: string := ApiUrl + "/api/admin/login"
  const DashboardUrl: string := ApiUrl + "/api/admin/dashboard"
  const InstructorListUrl: string := ApiUrl + "/api/admin/instructor-applications"
  const CourseListUrl: string := ApiUrl + "/api/admin/courses"

  /** The admin base, then the collection, the id and `approve`. */
  function InstructorApproveUrl(id: string): (r: string)
    ensures r == AdminBase + ("instructor-applications/" + id + "/approve")
  {
    assert "/api/admin/instructor-applications/" == "/api/admin/" + "instructor-applications/";
    ApiUrl + "/api/admin/instructor-applications/" + id + "/approve"
  }

  /** The admin base, then the collection, the id and `reject`. */
  function InstructorRejectUrl(id: string): (r: string)
    ensures r == AdminBase + ("instructor-applications/" + id + "/reject")
  {
    assert "/api/admin/instructor-applications/" == "/api/admin/" + "instructor-applications/";
    ApiUrl + "/api/admin/instructor-applications/" + id + "/reject"
  }

  /** The admin base, then the collection, the id and `approve`. */
  function CourseApproveUrl(id: string): (r: string)
    ensures r == AdminBase + ("courses/" + id + "/approve")
  {
    assert "/api/admin/courses/" == "/api/admin/" + "courses/";
    ApiUrl + "/api/admin/courses/" + id + "/approve"
  }

  /** The admin base, then the collection, the id and `reject`. */
  function CourseRejectUrl(id: string): (r: string)
    ensures r == AdminBase + ("courses/" + id + "/reject")
  {
    assert "/api/admin/courses/" == "/api/admin/" + "courses/";
    ApiUrl + "/api/admin/courses/" + id + "/reject"
  }

  /** `a + b` starts with `a`. */
  lemma PrefixOfConcat(p: string, s: string)
    ensures p <= p + s
  {
    assert (p + s)[..|p|] == p;
  }

  /** Every URL of the table lies under `API_URL + "/api/admin/"`. */
  lemma EveryUrlUnderAdminBase(id: string)
    ensures AdminBase <= AdminLoginUrl && AdminBase <= DashboardUrl
    ensures AdminBase <= InstructorListUrl && AdminBase <= CourseListUrl
    ensures AdminBase <= InstructorApproveUrl(id) && AdminBase <= InstructorRejectUrl(id)
    ensures AdminBase <= CourseApproveUrl(id) && AdminBase <= CourseRejectUrl(id)
  {
    assert "/api/admin/login" == "/api/admin/" + "login";
    assert "/api/admin/dashboard" == "/api/admin/" + "dashboard";
    assert "/api/admin/instructor-applications" == "/api/admin/" + "instructor-applications";
    assert "/api/admin/courses" == "/api/admin/" + "courses";
    PrefixOfConcat(AdminBase, "login");
    PrefixOfConcat(AdminBase, "dashboard");
    PrefixOfConcat(AdminBase, "instructor-applications");
    PrefixOfConcat(AdminBase, "courses");
    PrefixOfConcat(AdminBase, "instructor-applications/" + id + "/approve");
    PrefixOfConcat(AdminBase, "instructor-applications/" + id + "/reject");
    PrefixOfConcat(AdminBase, "courses/" + id + "/approve");
    PrefixOfConcat(AdminBase, "courses/" + id + "/reject");
  }

  /** Approve and reject of one item share the path `<list URL>/<id>` and differ only in the
      last segment; an approve URL is never a reject URL, whatever the two ids. */
  lemma ApproveAndRejectDifferInLastSegment(id: string, other: string)
    ensures InstructorListUrl + "/" + id <= InstructorApproveUrl(id)
    ensures InstructorListUrl + "/" + id <= InstructorRejectUrl(id)
    ensures CourseListUrl + "/" + id <= CourseApproveUrl(id)
    ensures CourseListUrl + "/" + id <= CourseRejectUrl(id)
    ensures InstructorApproveUrl(id) != InstructorRejectUrl(other)
    ensures CourseApproveUrl(id) != CourseRejectUrl(other)
  {
    assert InstructorApproveUrl(id) == InstructorListUrl + "/" + id + "/approve";
    assert InstructorRejectUrl(id) == InstructorListUrl + "/" + id + "/reject";
    assert CourseApproveUrl(id) == CourseListUrl + "/" + id + "/approve";
    assert CourseRejectUrl(id) == CourseListUrl + "/" + id + "/reject";
    PrefixOfConcat(InstructorListUrl + "/" + id, "/approve");
    PrefixOfConcat(InstructorListUrl + "/" + id, "/reject");
    PrefixOfConcat(CourseListUrl + "/" + id, "/approve");
    PrefixOfConcat(CourseListUrl + "/" + id, "/reject");
    // an approve URL ends in 'e', a reject URL in 't'
    var a := InstructorApproveUrl(id);
    var r := InstructorRejectUrl(other);
    assert a[|a| - 1] == 'e' && r[|r| - 1] == 't';
    var ca := CourseApproveUrl(id);
    var cr := CourseRejectUrl(other);
    assert ca[|ca| - 1] == 'e' && cr[|cr| - 1] == 't';
  }

  /** `front + a + back == front + b + back` only when `a == b`. */
  lemma {:induction false} InfixCancel(front: string, a: string, b: string, back: string)
    requires front + a + back == front + b + back
    ensures a == b
  {
    var s := front + a + back;
    assert |a| == |b|;
    assert a == s[|front|..|front| + |a|];
    assert b == (front + b + back)[|front|..|front| + |b|];
  }

  /** Different ids give different URLs. */
  lemma BuildersAreInjective(a: string, b: string)
    ensures InstructorApproveUrl(a) == InstructorApproveUrl(b) ==> a == b
    ensures InstructorRejectUrl(a) == InstructorRejectUrl(b) ==> a == b
    ensures CourseApproveUrl(a) == CourseApproveUrl(b) ==> a == b
    ensures CourseRejectUrl(a) == CourseRejectUrl(b) ==> a == b
  {
    var ip := ApiUrl + "/api/admin/instructor-applications/";
    var cp := ApiUrl + "/api/admin/courses/";
    if InstructorApproveUrl(a) == InstructorApproveUrl(b) { InfixCancel(ip, a, b, "/approve"); }
    if InstructorRejectUrl(a) == InstructorRejectUrl(b) { InfixCancel(ip, a, b, "/reject"); }
    if CourseApproveUrl(a) == CourseApproveUrl(b) { InfixCancel(cp, a, b, "/approve"); }
    if CourseRejectUrl(a) == CourseRejectUrl(b) { InfixCancel(cp, a, b, "/reject"); }
  }

  /** No instructor-application URL is a course URL: right after the admin base one reads
      'i' (instructor-applications) and the other 'c' (courses). */
  lemma InstructorUrlsAreNotCourseUrls(a: string, b: string)
    ensures {InstructorListUrl, InstructorApproveUrl(a), InstructorRejectUrl(a)}
         !! {CourseListUrl, CourseApproveUrl(b), CourseRejectUrl(b)}
  {
    var k := |AdminBase|;
    EveryUrlUnderAdminBase(a);
    EveryUrlUnderAdminBase(b);
    assert InstructorListUrl == AdminBase + "instructor-applications";
    assert InstructorApproveUrl(a) == AdminBase + ("instructor-applications/" + a + "/approve");
    assert InstructorRejectUrl(a) == AdminBase + ("instructor-applications/" + a + "/reject");
    assert CourseListUrl == AdminBase + "courses";
    assert CourseApproveUrl(b) == AdminBase + ("courses/" + b + "/approve");
    assert CourseRejectUrl(b) == AdminBase + ("courses/" + b + "/reject");
    assert InstructorListUrl[k] == 'i' && InstructorApproveUrl(a)[k] == 'i' && InstructorRejectUrl(a)[k] == 'i';
    assert CourseListUrl[k] == 'c' && CourseApproveUrl(b)[k] == 'c' && CourseRejectUrl(b)[k] == 'c';
  }
}
