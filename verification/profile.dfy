/** The fixed content behind the informational commands and the initial
    file contents (app/page.tsx): the help listing and the CV record. It is
    presentation data that the shell only copies into its output. The
    shell state carries it as a value, so the commands are modelled for any
    content; `PageContent` is the page's own. */
module Profile {
  import opened Text
  import opened Paths

  /** The commands that print fixed text. */
  datatype Topic = Help | About | Experience | Skills | Education | Contact | Whoami

  datatype Job = Job(title: string, company: string, period: string, duties: seq<string>)

  datatype Degree = Degree(degree: string, institution: string, year: string)

  /** The CV record the informational commands and the initial files are
      built from. */
  datatype Cv = Cv(
    name: string, title: string, email: string, discord: string, linkedIn: string, location: string,
    summary: string,
    jobs: seq<Job>,
    degrees: seq<Degree>,
    certifications: seq<string>,
    technicalSkills: seq<string>,
    softSkills: seq<string>)

  const Resume: Cv := Cv(
    "Juan Ignacio Strack",
    "DevOps Engineer | Cloud & Automation Enthusiast",
    "juanstrack@gmail.com",
    "patos.mates",
    "https://www.linkedin.com/in/strack-juan/",
    "Argentina",
    "DevOps Engineer with hands-on experience in CI/CD pipelines, automation with PowerShell, "
      + "and cloud resource management in Azure. Skilled in monitoring applications with Azure Monitor and "
      + "App Insights, and managing code with Git/Azure Repos. Passionate about Infrastructure as Code (IaC), "
      + "containerization, and cloud observability. Adept at solving complex problems, communicating "
      + "effectively in bilingual environments, and continuously improving technical workflows.",
    [Job("DevOps Engineer", "Arroyo Consulting", "Oct 2022 – Present", [
       "Designed and maintained CI/CD pipelines in Azure DevOps (YAML)",
       "Automated the provisioning and configuration of Azure resources using ARM templates",
       "Developed and updated automation scripts with PowerShell",
       "Monitored and troubleshooted applications with Azure Monitor and App Insights",
       "Managed source code using Git/Azure Repos (branching strategies, pull requests, code reviews)",
       "Documented processes and tools for cross-functional teams",
       "Provide support to QA and Development teams"]),
     Job("Shopkeeper", "Pescadería Santiago", "Mar 2020 – Aug 2021", [
       "Handled cash flow, schedules, and customer service",
       "Developed responsibility, organizational and interpersonal skills"])],
    [Degree("Bootcamp: DevOps Engineer", "EducaciónIT, Argentina", "2022")],
    ["IBM Cloud Essentials (2022)", "Oracle Infrastructure Associate (2022)", "Docker Essentials (2022)"],
    ["Azure DevOps (CI/CD)", "PowerShell", "ARM Templates", "Infrastructure as Code (IaC)",
     "Git / Azure Repos", "Docker", "Application Insights", "Azure Monitor"],
    ["Collaboration", "Critical Thinking", "Communication", "Teamwork"])

  /** Each item prefixed, in order. */
  function Prefixed(prefix: string, items: seq<string>): (lines: seq<string>)
    ensures |lines| == |items|
    ensures forall i :: 0 <= i < |items| ==> lines[i] == prefix + items[i]
  {
    seq(|items|, i requires 0 <= i < |items| => prefix + items[i])
  }

  /** The decimal spelling of a small count (the job numbering). */
  function Numeral(n: nat): string
  {
    if n < 10 then ["0123456789"[n]] else Numeral(n / 10) + ["0123456789"[n % 10]]
  }

  /** The numbered job blocks, each closed by a blank spacing line. */
  function JobLines(jobs: seq<Job>, start: nat): (lines: seq<string>)
    ensures |jobs| == 0 <==> lines == []
    ensures |jobs| > 0 ==> Last(lines) == ""
  {
    if |jobs| == 0 then []
    else
      var j := jobs[0];
      [Numeral(start) + ". " + j.title + " @ " + j.company, "   Period: " + j.period, "   Responsibilities:"]
        + Prefixed("   • ", j.duties) + [""] + JobLines(jobs[1..], start + 1)
  }

  function DegreeLines(ds: seq<Degree>): seq<string>
  {
    seq(|ds|, i requires 0 <= i < |ds| => ds[i].degree + " - " + ds[i].institution + " (" + ds[i].year + ")")
  }

  function ContactLines(cv: Cv): seq<string> {
    ["=== CONTACT INFORMATION ===", "Name: " + cv.name, "Email: " + cv.email, "Discord: " + cv.discord,
     "LinkedIn: " + cv.linkedIn, "Location: " + cv.location, ""]
  }

  const HelpLines: seq<string> := [
    "Available commands:",
    "  about       - Show professional summary",
    "  experience  - Display work experience",
    "  skills      - List technical skills",
    "  education   - Show education and certifications",
    "  contact     - Display contact information",
    "  whoami      - Show current user info",
    "  pwd         - Show current directory",
    "  ls          - List directory contents",
    "  cd <dir>    - Change directory",
    "  cat <file>  - Display file contents",
    "  touch <file> - Create empty file",
    "  mkdir <dir> - Create directory",
    "  echo <text> - Display text (use > file to redirect)",
    "  rm <file>   - Remove file",
    "  rmdir <dir> - Remove empty directory",
    "  vim <file>  - Edit file with vim",
    "  nano <file> - Edit file with nano",
    "  clear       - Clear terminal",
    ""]

  /** The texts of the three project files, in the order the home
      directory's `projects` listing names them. */
  const ProjectTexts: seq<seq<string>> := [
    [
      "=== CI/CD PIPELINES PROJECT ===",
      "Designed and maintained CI/CD pipelines in Azure DevOps using YAML",
      "• Automated build, test, and deployment processes",
      "• Implemented branching strategies and pull request workflows",
      "• Reduced deployment time by 60% through automation",
      ""],
    [
      "=== AZURE AUTOMATION PROJECT ===",
      "Automated provisioning and configuration of Azure resources",
      "• Created ARM templates for infrastructure as code",
      "• Developed PowerShell scripts for resource management",
      "• Implemented automated scaling and monitoring",
      ""],
    [
      "=== MONITORING SETUP PROJECT ===",
      "Implemented comprehensive monitoring with Azure Monitor and App Insights",
      "• Set up custom dashboards and alerts",
      "• Created automated incident response workflows",
      "• Improved system observability and reduced MTTR by 40%",
      ""]]

  /** What the page hard-codes: the help listing, the CV record the
      informational commands and most initial files are built from, and
      the project files' texts. */
  datatype Content = Content(help: seq<string>, cv: Cv, projects: seq<seq<string>>)

  const PageContent: Content := Content(HelpLines, Resume, ProjectTexts)

  /** What each informational command prints. Every listing built from the
      CV ends with a blank spacing line (the experience listing only when
      there is a job to list); help prints the help listing as it is. */
  function TopicLines(content: Content, t: Topic): (lines: seq<string>)
    ensures t != Help ==> |lines| > 0
    ensures t != Help && (t != Experience || |content.cv.jobs| > 0) ==> Last(lines) == ""
    ensures t == Help ==> lines == content.help
  {
    var cv := content.cv;
    match t
    case Help => content.help
    case About => ["=== PROFESSIONAL SUMMARY ===", cv.summary, ""]
    case Experience => ["=== WORK EXPERIENCE ==="] + JobLines(cv.jobs, 1)
    case Skills =>
      ["=== TECHNICAL SKILLS ===", Join(cv.technicalSkills, " | "), "",
       "=== SOFT SKILLS ===", Join(cv.softSkills, " | "), ""]
    case Education =>
      ["=== EDUCATION ==="] + DegreeLines(cv.degrees) + ["", "=== CERTIFICATIONS ==="]
        + Prefixed("• ", cv.certifications) + [""]
    case Contact => ContactLines(cv)
    case Whoami => [cv.name + " - " + cv.title, ""]
  }

  /** The directories under the home directory when the page loads. */
  const ExperienceDir := Child(Home, "experience")
  const SkillsDir := Child(Home, "skills")
  const EducationDir := Child(Home, "education")
  const ProjectsDir := Child(Home, "projects")

  /** The content has the two jobs, the degree and the three project
      texts the initial files are built from. */
  predicate HasFileSources(content: Content) {
    |content.cv.jobs| >= 2 && |content.cv.degrees| >= 1 && |content.projects| >= 3
  }

  /** Contents of the files present when the page loads, keyed by path. */
  function InitialFiles(content: Content): map<string, seq<string>>
    requires HasFileSources(content)
  {
    var cv := content.cv;
    map[
      Child(Home, "contact.txt") := ContactLines(cv),
      Child(Home, "about.txt") := ["=== ABOUT ME ===", cv.summary, ""],
      Child(ExperienceDir, "arroyo-consulting.txt") := JobFile("=== ARROYO CONSULTING ===", cv.jobs[0]),
      Child(ExperienceDir, "pescaderia-santiago.txt") := JobFile("=== PESCADERÍA SANTIAGO ===", cv.jobs[1]),
      Child(SkillsDir, "technical.txt") := ["=== TECHNICAL SKILLS ==="] + Prefixed("• ", cv.technicalSkills) + [""],
      Child(SkillsDir, "soft-skills.txt") := ["=== SOFT SKILLS ==="] + Prefixed("• ", cv.softSkills) + [""],
      Child(SkillsDir, "certifications.txt") := ["=== CERTIFICATIONS ==="] + Prefixed("• ", cv.certifications) + [""],
      Child(EducationDir, "bootcamp.txt") := [
        "=== EDUCATION ===", cv.degrees[0].degree, "Institution: " + cv.degrees[0].institution,
        "Year: " + cv.degrees[0].year, ""],
      Child(ProjectsDir, "ci-cd-pipelines.txt") := content.projects[0],
      Child(ProjectsDir, "azure-automation.txt") := content.projects[1],
      Child(ProjectsDir, "monitoring-setup.txt") := content.projects[2]
    ]
  }

  function JobFile(heading: string, j: Job): seq<string>
  {
    [heading, "Position: " + j.title, "Period: " + j.period, "", "Key Responsibilities:"]
      + Prefixed("• ", j.duties) + [""]
  }

  /** The directory listings present when the page loads, keyed by path. */
  const InitialDirs: map<string, seq<string>> := map[
    Home := ["experience", "skills", "education", "projects", "contact.txt", "about.txt"],
    ExperienceDir := ["arroyo-consulting.txt", "pescaderia-santiago.txt"],
    SkillsDir := ["technical.txt", "soft-skills.txt", "certifications.txt"],
    EducationDir := ["bootcamp.txt", "certifications.txt"],
    ProjectsDir := ["ci-cd-pipelines.txt", "azure-automation.txt", "monitoring-setup.txt"]
  ]

  const WelcomeLines: seq<string> := [
    "Welcome to Juan Ignacio Strack's Interactive CV Terminal",
    "Type 'help' to see available commands",
    ""]

  /** Every initial directory and file path starts with `/`. */
  lemma InitialPathsAbsolute(content: Content)
    requires HasFileSources(content)
    ensures forall p :: p in InitialDirs ==> IsAbsolute(p)
    ensures forall p :: p in InitialFiles(content) ==> IsAbsolute(p)
  {
  }

  /** The education directory lists a certifications file that the file
      map does not hold. */
  lemma CertificationsListedButMissing(content: Content)
    requires HasFileSources(content)
    ensures EducationDir in InitialDirs
    ensures "certifications.txt" in InitialDirs[EducationDir]
    ensures Child(EducationDir, "certifications.txt") !in InitialFiles(content)
  {
    // The one key of the same length differs at the first letter after
    // the home directory.
    assert Child(EducationDir, "certifications.txt")[14] == 'e';
    assert Child(ProjectsDir, "ci-cd-pipelines.txt")[14] == 'p';
  }
}
