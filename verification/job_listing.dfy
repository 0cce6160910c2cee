/** The `GET /api/jobs` handler (layers/portal-prueba/server/api/jobs.get.ts):
    the active jobs of a fixed list, in list order. */
module JobListing {
  import opened Wrappers
  import opened Seqs
  import opened JobTypes

  /** The active jobs of `jobs`, in their order. */
  function ActiveJobs(jobs: seq<Job>): (r: seq<Job>)
    ensures forall i :: 0 <= i < |r| ==> r[i].isActive
    ensures forall job :: job in r <==> job in jobs && job.isActive
    ensures IsSubsequence(r, jobs)
  {
    FilterIsSubsequence(jobs, (job: Job) => job.isActive);
    Filter(jobs, (job: Job) => job.isActive)
  }

  /** The list the handler ships. */
  function ShippedJobs(): (jobs: seq<Job>)
    ensures |jobs| == 6
    ensures forall i :: 0 <= i < |jobs| ==> jobs[i].isActive
  {
    [ShippedJob1(), ShippedJob2(), ShippedJob3(), ShippedJob4(), ShippedJob5(), ShippedJob6()]
  }

  /** The handler's reply. */
  function ListJobs(): (r: seq<Job>)
    ensures forall i :: 0 <= i < |r| ==> r[i].isActive
  {
    ActiveJobs(ShippedJobs())
  }

  /** Every shipped job is active, so the handler returns the whole list. */
  lemma ListJobsReturnsAll()
    ensures ListJobs() == ShippedJobs()
  {
    FilterKeepsAll(ShippedJobs(), (job: Job) => job.isActive);
  }

  /** The ids of `jobs`, in order. */
  function JobIds(jobs: seq<Job>): (ids: seq<string>)
    ensures |ids| == |jobs|
    ensures forall i :: 0 <= i < |jobs| ==> ids[i] == jobs[i].id
  {
    seq(|jobs|, i requires 0 <= i < |jobs| => jobs[i].id)
  }

  /** The ids of the shipped list are "1" to "6", in order. */
  lemma ShippedIds()
    ensures JobIds(ShippedJobs()) == ["1", "2", "3", "4", "5", "6"]
  {
    var jobs := ShippedJobs();
    assert jobs[0].id == "1" && jobs[1].id == "2" && jobs[2].id == "3";
    assert jobs[3].id == "4" && jobs[4].id == "5" && jobs[5].id == "6";
  }

  /** Jobs whose ids are "1" to "6" in order have pairwise distinct ids. */
  lemma DistinctIds(jobs: seq<Job>)
    requires JobIds(jobs) == ["1", "2", "3", "4", "5", "6"]
    ensures forall i, j :: 0 <= i < j < |jobs| ==> jobs[i].id != jobs[j].id
  {
  }

  /** The handler returns the six shipped jobs with the ids "1" to "6" in that
      order, so no two returned jobs share an id. */
  lemma ListedIdsDistinct()
    ensures JobIds(ListJobs()) == ["1", "2", "3", "4", "5", "6"]
    ensures forall i, j :: 0 <= i < j < |ListJobs()| ==> ListJobs()[i].id != ListJobs()[j].id
  {
    ListJobsReturnsAll();
    ShippedIds();
    DistinctIds(ListJobs());
  }

  // Job "1"
  const Job1Title := "Desarrollador Full Stack Senior"
  const Job1Company := "Tech Solutions Inc."
  const Job1Location := "Buenos Aires, Argentina (Híbrido)"
  const Job1Salary := "$50,000 - $70,000 ARS"
  const Job1Description :=
    "Buscamos un desarrollador full stack con experiencia en Vue.js y Node.js para unirse a nuestro equipo de desarrollo."
  const Job1Requirements: seq<string> := [
    "5+ años de experiencia en desarrollo web",
    "Dominio de Vue.js/Nuxt.js",
    "Experiencia con Node.js y Express",
    "Conocimientos de bases de datos SQL y NoSQL",
    "Experiencia con Git y metodologías ágiles"]
  const Job1Responsibilities: seq<string> := [
    "Desarrollar y mantener aplicaciones web",
    "Colaborar con el equipo de diseño y producto",
    "Realizar code reviews",
    "Optimizar el rendimiento de las aplicaciones",
    "Mentorear a desarrolladores junior"]
  const Job1Benefits: seq<string> := [
    "Seguro de gastos médicos mayores",
    "Vacaciones superiores a la ley",
    "Capacitación continua",
    "Trabajo híbrido",
    "Bonos por desempeño"]

  function ShippedJob1(): (j: Job)
    ensures j.id == "1" && j.isActive
  {
    Job("1", Job1Title, Job1Company, Job1Location, FullTime, Some(Job1Salary),
        Job1Description, Job1Requirements, Job1Responsibilities, Some(Job1Benefits),
        "2025-11-05", Some("2025-12-05"), true)
  }

  // Job "2"
  const Job2Title := "Diseñador UX/UI"
  const Job2Company := "Creative Agency"
  const Job2Location := "Remoto"
  const Job2Salary := "$35,000 - $50,000 ARS"
  const Job2Description :=
    "Buscamos un diseñador UX/UI creativo para crear experiencias digitales excepcionales."
  const Job2Requirements: seq<string> := [
    "3+ años de experiencia en diseño UX/UI",
    "Dominio de Figma y Adobe XD",
    "Portafolio sólido",
    "Conocimiento de design systems",
    "Inglés intermedio"]
  const Job2Responsibilities: seq<string> := [
    "Crear wireframes y prototipos",
    "Diseñar interfaces de usuario",
    "Realizar investigación de usuarios",
    "Colaborar con desarrolladores",
    "Mantener design systems"]
  const Job2Benefits: seq<string> := [
    "100% remoto",
    "Horario flexible",
    "Equipo de trabajo",
    "Días de salud mental"]

  function ShippedJob2(): (j: Job)
    ensures j.id == "2" && j.isActive
  {
    Job("2", Job2Title, Job2Company, Job2Location, Remote, Some(Job2Salary),
        Job2Description, Job2Requirements, Job2Responsibilities, Some(Job2Benefits),
        "2025-11-08", Some("2025-12-08"), true)
  }

  // Job "3"
  const Job3Title := "Data Analyst"
  const Job3Company := "Data Corp"
  const Job3Location := "Cordoba, Argentina"
  const Job3Salary := "$40,000 - $55,000 ARS"
  const Job3Description :=
    "Únete a nuestro equipo de análisis de datos para ayudar a tomar decisiones basadas en datos."
  const Job3Requirements: seq<string> := [
    "2+ años de experiencia en análisis de datos",
    "SQL avanzado",
    "Python o R",
    "Power BI o Tableau",
    "Estadística aplicada"]
  const Job3Responsibilities: seq<string> := [
    "Analizar grandes conjuntos de datos",
    "Crear dashboards y reportes",
    "Identificar tendencias y patrones",
    "Presentar insights al equipo ejecutivo",
    "Automatizar procesos de análisis"]
  const Job3Benefits: seq<string> := [
    "Seguro médico",
    "Vales de despensa",
    "Home office 2 días a la semana",
    "Capacitación en herramientas de análisis"]

  function ShippedJob3(): (j: Job)
    ensures j.id == "3" && j.isActive
  {
    Job("3", Job3Title, Job3Company, Job3Location, FullTime, Some(Job3Salary),
        Job3Description, Job3Requirements, Job3Responsibilities, Some(Job3Benefits),
        "2025-11-10", Some("2025-12-10"), true)
  }

  // Job "4"
  const Job4Title := "Marketing Digital Manager"
  const Job4Company := "E-commerce Plus"
  const Job4Location := "Rosario, Argentina"
  const Job4Salary := "$45,000 - $60,000 ARS"
  const Job4Description :=
    "Líder de marketing digital para impulsar nuestras estrategias de crecimiento en línea."
  const Job4Requirements: seq<string> := [
    "4+ años en marketing digital",
    "Experiencia en e-commerce",
    "Google Ads y Facebook Ads",
    "SEO/SEM",
    "Analítica web"]
  const Job4Responsibilities: seq<string> := [
    "Desarrollar estrategias de marketing digital",
    "Gestionar presupuestos de publicidad",
    "Analizar métricas y KPIs",
    "Liderar equipo de marketing",
    "Optimizar conversiones"]
  const Job4Benefits: seq<string> := [
    "Bonos por resultados",
    "Seguro de vida",
    "Prestaciones superiores",
    "Oportunidades de crecimiento"]

  function ShippedJob4(): (j: Job)
    ensures j.id == "4" && j.isActive
  {
    Job("4", Job4Title, Job4Company, Job4Location, FullTime, Some(Job4Salary),
        Job4Description, Job4Requirements, Job4Responsibilities, Some(Job4Benefits),
        "2025-11-07", Some("2025-12-07"), true)
  }

  // Job "5"
  const Job5Title := "Desarrollador Frontend Junior"
  const Job5Company := "StartupTech"
  const Job5Location := "Remoto"
  const Job5Salary := "$25,000 - $35,000 ARS"
  const Job5Description :=
    "Oportunidad para desarrolladores junior apasionados por el frontend y dispuestos a aprender."
  const Job5Requirements: seq<string> := [
    "1+ año de experiencia",
    "HTML, CSS, JavaScript",
    "React o Vue.js",
    "Git básico",
    "Ganas de aprender"]
  const Job5Responsibilities: seq<string> := [
    "Desarrollar componentes de UI",
    "Implementar diseños responsivos",
    "Colaborar con el equipo",
    "Aprender mejores prácticas",
    "Participar en code reviews"]
  const Job5Benefits: seq<string> := [
    "100% remoto",
    "Mentoring",
    "Cursos pagados",
    "Ambiente de aprendizaje"]

  function ShippedJob5(): (j: Job)
    ensures j.id == "5" && j.isActive
  {
    Job("5", Job5Title, Job5Company, Job5Location, Remote, Some(Job5Salary),
        Job5Description, Job5Requirements, Job5Responsibilities, Some(Job5Benefits),
        "2025-11-09", Some("2025-12-15"), true)
  }

  // Job "6"
  const Job6Title := "Product Manager"
  const Job6Company := "SaaS Company"
  const Job6Location := "Buenos Aires, Argentina"
  const Job6Salary := "$60,000 - $80,000 ARS"
  const Job6Description :=
    "Product Manager para liderar el desarrollo de nuestros productos SaaS."
  const Job6Requirements: seq<string> := [
    "3+ años como Product Manager",
    "Experiencia en productos SaaS",
    "Metodologías ágiles",
    "Análisis de mercado",
    "Inglés avanzado"]
  const Job6Responsibilities: seq<string> := [
    "Definir roadmap de producto",
    "Priorizar features",
    "Trabajar con stakeholders",
    "Analizar métricas de producto",
    "Coordinar con equipos de desarrollo"]
  const Job6Benefits: seq<string> := [
    "Salario competitivo",
    "Stock options",
    "Seguro médico premium",
    "Trabajo híbrido",
    "Conferencias internacionales"]

  function ShippedJob6(): (j: Job)
    ensures j.id == "6" && j.isActive
  {
    Job("6", Job6Title, Job6Company, Job6Location, FullTime, Some(Job6Salary),
        Job6Description, Job6Requirements, Job6Responsibilities, Some(Job6Benefits),
        "2025-11-06", Some("2025-12-06"), true)
  }
}
