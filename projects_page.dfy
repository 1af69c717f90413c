/** The project list (src/pages/ProjectsPage.tsx): the project form's validation, the
    limit of four projects per user, deletion and the completion percentage. */
module Projects {
  import opened Wrappers
  import opened Constants
  import opened Lists
  import opened Rounding

  datatype Project = Project(
    id: string,
    name: string,
    description: string,
    taskCount: nat,
    completedTaskCount: nat,
    createdAt: string)

  // ---------------------------------------------------------------------------
  // Validation: the page keeps one message per field, "" when the field is accepted.

  function ProjectNameError(name: string): (e: string)
    ensures name == "" ==> e == REQUIRED
    ensures 0 < |name| < 3 ==> e == PROJECT_NAME_MIN_LENGTH
    ensures |name| > 50 ==> e == PROJECT_NAME_MAX_LENGTH
    ensures e == "" <==> 3 <= |name| <= 50
  {
    if name == "" then REQUIRED
    else if |name| < 3 then PROJECT_NAME_MIN_LENGTH
    else if |name| > 50 then PROJECT_NAME_MAX_LENGTH
    else ""
  }

  function ProjectDescriptionError(description: string): (e: string)
    ensures e == "" <==> |description| <= 500
    ensures e != "" ==> e == DESCRIPTION_MAX_LENGTH
  {
    if |description| > 500 then DESCRIPTION_MAX_LENGTH else ""
  }

  predicate ProjectFormValid(name: string, description: string)
  {
    3 <= |name| <= 50 && |description| <= 500
  }

  // ---------------------------------------------------------------------------
  // The project limit

  /** `projects.length >= MAX_PROJECTS_PER_USER`: the create handler refuses. */
  predicate AtProjectLimit(projects: seq<Project>)
  {
    |projects| >= MAX_PROJECTS_PER_USER
  }

  /** The "New Project" button is shown exactly when the limit would not refuse a create. */
  function CanOfferNewProject(projects: seq<Project>): (b: bool)
    ensures b <==> !AtProjectLimit(projects)
  {
    |projects| < MAX_PROJECTS_PER_USER
  }

  /** The list after a create that passed validation and whose request succeeded:
      the project is appended unless the limit refuses it. */
  function AddProject(projects: seq<Project>, p: Project): (r: seq<Project>)
    ensures AtProjectLimit(projects) ==> r == projects
    ensures !AtProjectLimit(projects) ==> r == projects + [p] && |r| <= MAX_PROJECTS_PER_USER
  {
    if |projects| >= MAX_PROJECTS_PER_USER then projects else projects + [p]
  }

  /** The list after a series of creates, in order. */
  function AddProjects(projects: seq<Project>, news: seq<Project>): seq<Project>
    decreases |news|
  {
    if news == [] then projects else AddProjects(AddProject(projects, news[0]), news[1..])
  }

  function Min(a: nat, b: nat): nat
  {
    if a <= b then a else b
  }

  /** However many creates are attempted, they stop at the cap: a list already at or over it
      stays as it is, a shorter one grows to at most `MAX_PROJECTS_PER_USER`. */
  lemma {:induction false} CreatesStopAtCap(projects: seq<Project>, news: seq<Project>)
    ensures |AddProjects(projects, news)| ==
      if AtProjectLimit(projects) then |projects|
      else Min(|projects| + |news|, MAX_PROJECTS_PER_USER)
    decreases |news|
  {
    if news != [] {
      CreatesStopAtCap(AddProject(projects, news[0]), news[1..]);
    }
  }

  /** The attempted creates never leave more than the cap, unless the loaded list already had more. */
  lemma CreatesKeepCountBounded(projects: seq<Project>, news: seq<Project>)
    ensures |AddProjects(projects, news)| <= if |projects| > MAX_PROJECTS_PER_USER then |projects| else MAX_PROJECTS_PER_USER
  {
    CreatesStopAtCap(projects, news);
  }

  // ---------------------------------------------------------------------------
  // Deletion and percentage

  function IdIsNot(id: string): Project -> bool
  {
    (p: Project) => p.id != id
  }

  /** `handleDeleteProject`'s filter: every project with `projectId` goes, the rest keep their order. */
  function RemoveProject(projects: seq<Project>, projectId: string): (r: seq<Project>)
    ensures forall p :: p in r <==> p in projects && p.id != projectId
    ensures forall p :: multiset(r)[p] == if p.id != projectId then multiset(projects)[p] else 0
    ensures IsSubsequence(r, projects)
    ensures |r| <= |projects|
  {
    Filter(IdIsNot(projectId), projects)
  }

  /** Deleting the same project again changes nothing. */
  lemma RemoveProjectIdempotent(projects: seq<Project>, projectId: string)
    ensures RemoveProject(RemoveProject(projects, projectId), projectId) == RemoveProject(projects, projectId)
  {
    FilterIdempotent(IdIsNot(projectId), projects);
  }

  /** `project.taskCount || 1`: the divisor is never zero. */
  function TaskCountOrOne(n: nat): (d: nat)
    ensures d > 0
    ensures n > 0 ==> d == n
  {
    if n == 0 then 1 else n
  }

  /** `Math.round(completedTaskCount / (taskCount || 1) * 100)`. */
  function CompletionPercent(p: Project): (r: nat)
    ensures p.completedTaskCount <= p.taskCount ==> r <= 100
    ensures p.completedTaskCount == 0 ==> r == 0
    ensures p.taskCount > 0 && p.completedTaskCount == p.taskCount ==> r == 100
    // a project reporting completed tasks but no tasks shows 100 per completed task
    ensures p.taskCount == 0 ==> r == 100 * p.completedTaskCount
    ensures var d := TaskCountOrOne(p.taskCount);
      2 * d * r <= 200 * p.completedTaskCount + d < 2 * d * (r + 1)
  {
    var r := Percent(p.completedTaskCount, TaskCountOrOne(p.taskCount));
    if p.taskCount == 0 then
      assert 2 * r <= 200 * p.completedTaskCount + 1 < 2 * (r + 1);
      r
    else
      r
  }

  // ---------------------------------------------------------------------------
  // The page

  class ProjectsPage {
    var projects: seq<Project>
    var projectName: string
    var projectDescription: string
    var projectNameError: string
    var projectDescriptionError: string
    var selectedProject: Option<Project>
    var isSubmitting: bool

    /** The page once its project list has loaded as `loaded`. */
    constructor (loaded: seq<Project>)
      ensures projects == loaded && selectedProject == None && !isSubmitting
      ensures projectName == "" && projectDescription == ""
      ensures projectNameError == "" && projectDescriptionError == ""
    {
      projects := loaded;
      projectName, projectDescription := "", "";
      projectNameError, projectDescriptionError := "", "";
      selectedProject := None;
      isSubmitting := false;
    }

    /** `validateProjectForm`: a mutable flag and one error setter per field. */
    method ValidateProjectForm() returns (isValid: bool)
      modifies this`projectNameError, this`projectDescriptionError
      ensures projectNameError == ProjectNameError(projectName)
      ensures projectDescriptionError == ProjectDescriptionError(projectDescription)
      ensures isValid <==> ProjectFormValid(projectName, projectDescription)
    {
      isValid := true;
      if projectName == "" {
        projectNameError := REQUIRED;
        isValid := false;
      } else if |projectName| < 3 {
        projectNameError := PROJECT_NAME_MIN_LENGTH;
        isValid := false;
      } else if |projectName| > 50 {
        projectNameError := PROJECT_NAME_MAX_LENGTH;
        isValid := false;
      } else {
        projectNameError := "";
      }
      if |projectDescription| > 500 {
        projectDescriptionError := DESCRIPTION_MAX_LENGTH;
        isValid := false;
      } else {
        projectDescriptionError := "";
      }
    }

    /** `openCreateModal` and `closeCreateModal` both clear the form and its errors. */
    method ResetCreateForm()
      modifies this`projectName, this`projectDescription, this`projectNameError, this`projectDescriptionError
      ensures projectName == "" && projectDescription == ""
      ensures projectNameError == "" && projectDescriptionError == ""
    {
      projectName, projectDescription := "", "";
      projectNameError, projectDescriptionError := "", "";
    }

    /** `handleCreateProject` with `reply` the answer to the create request; the appended
        project takes its id and creation time from `newId` and `createdAt`. */
    method HandleCreateProject(reply: Reply, newId: string, createdAt: string)
      modifies this`projects, this`projectName, this`projectDescription, this`projectNameError,
               this`projectDescriptionError, this`isSubmitting
      ensures var valid := ProjectFormValid(old(projectName), old(projectDescription));
        var proceeds := valid && !AtProjectLimit(old(projects));
        && projects == (if proceeds && reply.Succeeded?
                        then old(projects) + [Project(newId, old(projectName), old(projectDescription), 0, 0, createdAt)]
                        else old(projects))
        && isSubmitting == (if proceeds then false else old(isSubmitting))
        && (if proceeds && reply.Succeeded?
            then projectName == "" && projectDescription == ""
                 && projectNameError == "" && projectDescriptionError == ""
            else projectName == old(projectName) && projectDescription == old(projectDescription)
                 && projectNameError == ProjectNameError(old(projectName))
                 && projectDescriptionError == ProjectDescriptionError(old(projectDescription)))
      // the create never takes the list past the cap
      ensures projects != old(projects) ==>
        |old(projects)| < MAX_PROJECTS_PER_USER && |projects| == |old(projects)| + 1 <= MAX_PROJECTS_PER_USER
    {
      var valid := ValidateProjectForm();
      if !valid {
        return;
      }
      if |projects| >= MAX_PROJECTS_PER_USER {
        return;
      }
      isSubmitting := true;
      if reply.Succeeded? {
        // the handler's closure still holds the form as submitted after the modal closes,
        // and its later write wins: the project built from that form
        var created := Project(newId, projectName, projectDescription, 0, 0, createdAt);
        ResetCreateForm();
        projects := projects + [created];
      }
      isSubmitting := false;
    }

    method OpenDeleteModal(project: Project)
      modifies this`selectedProject
      ensures selectedProject == Some(project)
    {
      selectedProject := Some(project);
    }

    method CloseDeleteModal()
      modifies this`selectedProject
      ensures selectedProject == None
    {
      selectedProject := None;
    }

    /** `handleDeleteProject` with `reply` the answer to the delete request. */
    method HandleDeleteProject(reply: Reply)
      modifies this`projects, this`isSubmitting, this`selectedProject
      ensures var proceeds := old(selectedProject).Some?;
        && projects == (if proceeds && reply.Succeeded?
                        then RemoveProject(old(projects), old(selectedProject).value.id)
                        else old(projects))
        && isSubmitting == (if proceeds then false else old(isSubmitting))
        && selectedProject == (if proceeds && reply.Succeeded? then None else old(selectedProject))
    {
      if selectedProject.None? {
        return;
      }
      isSubmitting := true;
      if reply.Succeeded? {
        projects := RemoveProject(projects, selectedProject.value.id);
        CloseDeleteModal();
      }
      isSubmitting := false;
    }
  }
}
