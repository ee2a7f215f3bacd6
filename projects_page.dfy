/** The admin projects list without its own guard
    (src/pages/admin/ProjectsPage.tsx): the shared projects table, fetched
    unconditionally on mount. */
module ProjectsPage {
  import opened Common
  import opened Supabase
  import ProjectList

  /** The mount effect: a fresh table, then the fetch, whoever is signed in. */
  method Mount(resp: Response<seq<Project>>) returns (table: ProjectList.ProjectTable)
    ensures fresh(table)
    ensures table.projects == (if resp.Data? then ListOrEmpty(resp.data) else [])
    ensures !table.loading && table.projectToDelete == None
  {
    table := new ProjectList.ProjectTable();
    table.FetchProjects(resp);
  }
}
