/** The rows of a desktop, divided by project. */
module SessionProjects {
  import opened JsText
  import opened Lists
  import opened SessionListing

  datatype ProjectGroup = ProjectGroup(project: Str, rows: seq<Row>)

  function ProjectOf(row: Row): Str { Trim(row.project) }

  /** The rows of one project, as they came. */
  function Under(rows: seq<Row>, project: Str): seq<Row> {
    if rows == [] then []
    else Under(rows[..|rows| - 1], project) + if ProjectOf(rows[|rows| - 1]) == project then [rows[|rows| - 1]] else []
  }

  /** The projects, each where it first appears. */
  function Projects(rows: seq<Row>): seq<Str> {
    if rows == [] then []
    else
      var before, project := Projects(rows[..|rows| - 1]), ProjectOf(rows[|rows| - 1]);
      if project in before then before else before + [project]
  }

  /** The groups are the projects in order of first appearance, each holding exactly its rows. */
  predicate Splits(groups: seq<ProjectGroup>, rows: seq<Row>) {
    && |groups| == |Projects(rows)|
    && forall g :: 0 <= g < |groups| ==> groups[g].project == Projects(rows)[g] && groups[g].rows == Under(rows, Projects(rows)[g])
  }

  /** The map beside the groups: where each project's group is. */
  predicate Indexes(byProject: map<Str, nat>, groups: seq<ProjectGroup>) {
    && (forall p :: p in byProject ==> byProject[p] < |groups| && groups[byProject[p]].project == p)
    && (forall g :: 0 <= g < |groups| ==> groups[g].project in byProject && byProject[groups[g].project] == g)
  }

  method GroupByProject(rows: seq<Row>) returns (groups: seq<ProjectGroup>)
    ensures Splits(groups, rows)
  {
    groups := [];
    var byProject: map<Str, nat> := map[];
    for i := 0 to |rows|
      invariant Splits(groups, rows[..i]) && Indexes(byProject, groups)
    {
      var row, project := rows[i], ProjectOf(rows[i]);
      assert rows[..i + 1] == rows[..i] + [row];
      if project in byProject {
        var g := byProject[project];
        JoinsGroup(groups, rows[..i], row, project, g);
        groups := groups[g := ProjectGroup(project, groups[g].rows + [row])];
      } else {
        OpensGroup(groups, byProject, rows[..i], row, project);
        byProject := byProject[project := |groups|];
        groups := groups + [ProjectGroup(project, [row])];
      }
    }
    assert rows[..|rows|] == rows;
  }

  lemma Grows(rows: seq<Row>, row: Row, project: Str)
    requires project == ProjectOf(row)
    ensures Projects(rows + [row]) == if project in Projects(rows) then Projects(rows) else Projects(rows) + [project]
    ensures forall p :: Under(rows + [row], p) == Under(rows, p) + if project == p then [row] else []
  {
    assert (rows + [row])[..|rows|] == rows;
  }

  lemma JoinsGroup(groups: seq<ProjectGroup>, rows: seq<Row>, row: Row, project: Str, g: nat)
    requires Splits(groups, rows) && g < |groups| && groups[g].project == project == ProjectOf(row)
    ensures Splits(groups[g := ProjectGroup(project, groups[g].rows + [row])], rows + [row])
  {
    Grows(rows, row, project);
    ProjectsDistinct(rows);
    assert Projects(rows)[g] == project;
  }

  lemma OpensGroup(groups: seq<ProjectGroup>, byProject: map<Str, nat>, rows: seq<Row>, row: Row, project: Str)
    requires Splits(groups, rows) && Indexes(byProject, groups) && project !in byProject && project == ProjectOf(row)
    ensures Splits(groups + [ProjectGroup(project, [row])], rows + [row])
  {
    assert project !in Projects(rows) by {
      forall g | 0 <= g < |Projects(rows)| ensures Projects(rows)[g] != project {
        assert groups[g].project in byProject;
      }
    }
    Grows(rows, row, project);
    UnderNew(rows, project);
  }

  lemma {:induction false} UnderNew(rows: seq<Row>, project: Str)
    ensures Under(rows, project) == [] <==> project !in Projects(rows)
  {
    if rows != [] {
      UnderNew(rows[..|rows| - 1], project);
    }
  }

  lemma {:induction false} ProjectsDistinct(rows: seq<Row>)
    ensures Distinct(Projects(rows))
  {
    if rows != [] {
      ProjectsDistinct(rows[..|rows| - 1]);
    }
  }

  function Total(groups: seq<ProjectGroup>): nat {
    if groups == [] then 0 else |groups[0].rows| + Total(groups[1..])
  }

  function UnderAll(rows: seq<Row>, projects: seq<Str>): nat {
    if projects == [] then 0 else |Under(rows, projects[0])| + UnderAll(rows, projects[1..])
  }

  lemma {:induction false} UnderAllStep(rows: seq<Row>, projects: seq<Str>)
    requires rows != [] && Distinct(projects)
    ensures UnderAll(rows, projects) == UnderAll(rows[..|rows| - 1], projects) + if ProjectOf(rows[|rows| - 1]) in projects then 1 else 0
    decreases |projects|
  {
    if projects != [] {
      UnderAllStep(rows, projects[1..]);
    }
  }

  lemma {:induction false} UnderAllMore(rows: seq<Row>, projects: seq<Str>, project: Str)
    ensures UnderAll(rows, projects + [project]) == UnderAll(rows, projects) + |Under(rows, project)|
  {
    if projects == [] {
      assert [project][1..] == [];
    } else {
      assert (projects + [project])[1..] == projects[1..] + [project];
      UnderAllMore(rows, projects[1..], project);
    }
  }

  lemma {:induction false} UnderAllIsAll(rows: seq<Row>)
    ensures UnderAll(rows, Projects(rows)) == |rows|
  {
    if rows != [] {
      var rest, project := rows[..|rows| - 1], ProjectOf(rows[|rows| - 1]);
      UnderAllIsAll(rest);
      ProjectsDistinct(rows);
      UnderAllStep(rows, Projects(rows));
      UnderNew(rest, project);
      if project !in Projects(rest) {
        UnderAllMore(rest, Projects(rest), project);
      }
    }
  }

  lemma {:induction false} TotalUnder(groups: seq<ProjectGroup>, rows: seq<Row>, projects: seq<Str>)
    requires |groups| == |projects|
    requires forall g :: 0 <= g < |groups| ==> groups[g].rows == Under(rows, projects[g])
    ensures Total(groups) == UnderAll(rows, projects)
  {
    if groups != [] {
      TotalUnder(groups[1..], rows, projects[1..]);
    }
  }

  /** Every row stands under its own project, trimmed, and under no other. */
  lemma RowsUnderTheirProject(groups: seq<ProjectGroup>, rows: seq<Row>, g: nat, row: Row)
    requires Splits(groups, rows) && g < |groups|
    ensures row in groups[g].rows <==> row in rows && Trim(row.project) == groups[g].project
  {
    UnderIs(rows, groups[g].project, row);
  }

  lemma {:induction false} UnderIs(rows: seq<Row>, project: Str, row: Row)
    ensures row in Under(rows, project) <==> row in rows && Trim(row.project) == project
  {
    if rows != [] {
      var rest, last := rows[..|rows| - 1], rows[|rows| - 1];
      UnderIs(rest, project, row);
      assert rows == rest + [last];
    }
  }

  /** No heading twice, no heading without a row, and no row lost or drawn twice. */
  lemma ProjectsPartition(groups: seq<ProjectGroup>, rows: seq<Row>)
    requires Splits(groups, rows)
    ensures Total(groups) == |rows|
    ensures forall g, h :: 0 <= g < h < |groups| ==> groups[g].project != groups[h].project
    ensures forall g :: 0 <= g < |groups| ==> groups[g].rows != []
  {
    TotalUnder(groups, rows, Projects(rows));
    UnderAllIsAll(rows);
    ProjectsDistinct(rows);
    forall g | 0 <= g < |groups| ensures groups[g].rows != [] { UnderNew(rows, Projects(rows)[g]); }
  }
}
