/** The built-in resume and configuration the store starts from and resets to. */
module Defaults {
  import opened Wrappers
  import opened Strings
  import opened Resume
  import opened ListEdit

  const DefaultProfile: Profile := Profile(
    name := "张三",
    title := "前端开发工程师",
    email := "zhangsan@example.com",
    phone := "+86 138-0000-0000",
    location := "北京市",
    website := Some(""),
    linkedin := Some(""),
    github := Some(""),
    summary := "具有3年前端开发经验的工程师，熟练掌握React、Vue等现代前端框架，有丰富的项目开发和团队协作经验。",
    summaryMarkdown := None)

  const DefaultEducation: seq<Education> := [
    Education(
      id := "1",
      school := "北京大学",
      degree := "学士",
      major := "计算机科学与技术",
      startDate := "2018-09",
      endDate := "2022-06",
      gpa := Some("3.8/4.0"),
      description := Some("主修课程：数据结构、算法设计、软件工程、数据库系统"),
      descriptionMarkdown := None)
  ]

  const DefaultExperience: seq<Experience> := [
    Experience(
      id := "1",
      company := "阿里巴巴集团",
      position := "前端开发工程师",
      startDate := "2022-07",
      endDate := "2024-12",
      current := true,
      location := "杭州市",
      description := "负责电商平台前端开发，参与多个核心业务模块的设计与实现",
      descriptionMarkdown := None,
      achievements := [
        "独立完成用户中心模块重构，提升页面加载速度30%",
        "参与设计组件库，提高团队开发效率25%",
        "负责移动端适配，确保多端体验一致性"
      ])
  ]

  const DefaultProjects: seq<Project> := [
    Project(
      id := "1",
      name := "电商管理后台系统",
      description := "基于React和Ant Design开发的电商管理后台系统",
      descriptionMarkdown := None,
      technologies := ["React", "TypeScript", "Ant Design", "Redux"],
      startDate := "2023-03",
      endDate := "2023-08",
      url := Some("https://example.com"),
      github := Some("https://github.com/example/project"),
      highlights := ["实现了完整的权限管理系统", "支持多语言国际化", "集成了数据可视化图表"])
  ]

  const FrontEndItems: seq<string> := ["React", "Vue", "TypeScript", "JavaScript", "HTML5", "CSS3"]
  const ToolItems: seq<string> := ["Webpack", "Vite", "Git", "Docker", "Node.js"]

  const DefaultSkills: seq<Skill> := [
    Skill("1", "前端技术", FrontEndItems),
    Skill("2", "工具框架", ToolItems)
  ]

  const DefaultLanguages: seq<Language> := [
    Language("1", "中文", Native),
    Language("2", "英语", Intermediate)
  ]

  const DefaultCertificates: seq<Certificate> := [
    Certificate("1", "AWS云从业者认证", "Amazon Web Services", "2023-06", Some("https://aws.amazon.com/certification/"))
  ]

  const DefaultResumeData: ResumeData := ResumeData(
    DefaultProfile, DefaultEducation, DefaultExperience, DefaultProjects,
    DefaultSkills, DefaultLanguages, DefaultCertificates)

  const DefaultConfig: ResumeConfig := ResumeConfig(Modern, "#3b82f6", Medium, Normal)

  /** Within each built-in list the ids are pairwise distinct. */
  lemma DefaultIdsUnique()
    ensures UniqueIds(DefaultResumeData.education, (e: Education) => e.id)
    ensures UniqueIds(DefaultResumeData.experience, (e: Experience) => e.id)
    ensures UniqueIds(DefaultResumeData.projects, (p: Project) => p.id)
    ensures UniqueIds(DefaultResumeData.skills, (s: Skill) => s.id)
    ensures UniqueIds(DefaultResumeData.languages, (l: Language) => l.id)
    ensures UniqueIds(DefaultResumeData.certificates, (c: Certificate) => c.id)
  {
  }

  /** The built-in experience is marked current yet keeps an end date, so "current implies no end date" is not a data invariant. */
  lemma DefaultCurrentWithEndDate()
    ensures exists e :: e in DefaultResumeData.experience && e.current && e.endDate != ""
  {
    assert DefaultExperience[0] in DefaultResumeData.experience;
  }
}
