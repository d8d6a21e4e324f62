/** What the endpoints fix or check about a transaction's input before they call it. */
module Endpoints {
  import opened Domain
  import opened Transactions
  import opened Requests
  import opened Scoring

  // ---------- Inspections ----------

  /** The checklist every report is seeded with. */
  const CHECKLIST_TEMPLATE: seq<TemplateRow> := [
    TemplateRow("Garden condition", "Full garden view", true, 1),
    TemplateRow("Crop health", "Leaf and growth check", true, 2),
    TemplateRow("Irrigation status", "Watering and delivery system", true, 3),
    TemplateRow("Pest and disease", "Signs of pests or disease", true, 4),
    TemplateRow("Soil and beds", "Bed structure and soil condition", false, 5),
    TemplateRow("Safety and access", "Safe access and working area", false, 6),
    TemplateRow("User compliance", "Site usage and access checks", false, 7),
    TemplateRow("Yield progress", "Expected progress and maturity", false, 8)]

  predicate ValidItem(row: ChecklistItem) {
    && 1 <= |row.category| <= 120 && 1 <= |row.name| <= 200 && 0 <= row.sortOrder <= 1000
    && (row.comment.Some? ==> |row.comment.value| <= 2000)
  }

  /** An assessment stores the score of the facts it was given. */
  predicate ScoredAssessment(v: Assessment) {
    Valid(v.findings.site)
    && v.findings == FindingsOf(v.findings.site, v.findings.crops, v.findings.infrastructure)
  }

  /** A submission also recommends something, and is flagged by its band. */
  predicate ScoredSubmission(v: Assessment, overall: OverallStatus, followUp: bool) {
    && ScoredAssessment(v) && v.findings.crops != [] && v.findings.infrastructure != []
    && overall == OverallOf(v.findings.band) && followUp == FollowUp(v.findings.band)
  }

  // ---------- Gardens ----------

  predicate ValidForm(form: AllocationForm) {
    && 1 <= |form.plants| <= 50
    && (form.inspectionNotes.Some? ==> |form.inspectionNotes.value| <= 4000)
    && (form.allocationNotes.Some? ==> |form.allocationNotes.value| <= 4000)
  }

  const INSTALL_TYPES: set<string> := {
    "raised_bed", "in_ground", "container", "vertical", "greenhouse", "hydroponic", "wicking_bed"}

  predicate ValidFacts(facts: InstallationFacts) {
    && facts.installType in INSTALL_TYPES
    && 0.0 < facts.sizeM2 <= 100000.0 && 0 < facts.capacityUnits <= 100000
    && 10 <= |facts.maintenanceNotes| <= 4000 && 1 <= |facts.photos| <= 10
  }
}
