/** The advisor's fixed knowledge base: the SAP module catalogue, the trigger
    phrases per module and per non-SAP system, the hosting labels and the
    named-user candidates. Trigger phrases are already lower-case, because they
    are matched against lower-cased text. */
module Catalog {

  /** The designated core platform module. */
  const Core := "S/4HANA"

  /** The designated user-experience layer module. */
  const Ux := "Fiori"

  /** Module codes in catalogue order (the key order of `SAP_MODULES`). */
  const SapModules: seq<string> := [
    "FI", "CO", "MM", "SD", "PP", "QM", "PM", "EWM", "TM", "HCM", "SF",
    "BW/4HANA", "MDG", "Ariba", "IBP", "CRM", "S/4HANA", "Fiori"
  ]

  /** Trigger phrases per module; the core and UX modules have none. */
  const ModuleKeywords: map<string, seq<string>> := map[
    "FI" := ["invoice", "ledger", "account", "finance", "payable", "receivable", "tax", "closing"],
    "CO" := ["cost", "controlling", "profit", "overhead", "allocation"],
    "MM" := ["procure", "purchase", "material", "supplier", "inventory", "mrp"],
    "SD" := ["order", "sales", "quote", "delivery", "billing", "customer"],
    "PP" := ["production", "bom", "routing", "shopfloor", "mrp", "capacity"],
    "QM" := ["quality", "inspection", "defect", "compliance"],
    "PM" := ["maintenance", "asset", "breakdown", "work order"],
    "EWM" := ["warehouse", "putaway", "picking", "yard", "slotting"],
    "TM" := ["transport", "freight", "carrier", "route", "shipment"],
    "HCM" := ["payroll", "time", "leave", "hr", "attendance"],
    "SF" := ["successfactors", "talent", "recruit", "performance", "learning"],
    "BW/4HANA" := ["report", "bi", "analytics", "warehouse", "kpi"],
    "MDG" := ["master data", "governance", "golden record", "mdm"],
    "Ariba" := ["ariba", "sourcing", "contract", "supplier portal"],
    "IBP" := ["planning", "demand", "supply", "inventory opt", "sales ops", "forecast"],
    "CRM" := ["crm", "customer care", "ticket", "service"]
  ]

  /** Non-SAP system labels in table order (the key order of `NON_SAP_SYSTEMS`). */
  const NonSapSystems: seq<string> := [
    "3PL/WMS", "Payment Gateway", "Data Lake", "API Mgmt", "IoT Gateway",
    "Edge Devices", "Analytics", "CRM (Non-SAP)"
  ]

  const NonSapKeywords: map<string, seq<string>> := map[
    "3PL/WMS" := ["3pl", "wms", "logistics partner"],
    "Payment Gateway" := ["payment", "gateway", "upi", "card"],
    "Data Lake" := ["data lake", "lakehouse", "delta"],
    "API Mgmt" := ["api", "integration", "apim"],
    "IoT Gateway" := ["iot", "sensor", "machine", "edge"],
    "Edge Devices" := ["edge", "plc", "raspberry"],
    "Analytics" := ["power bi", "tableau", "dash", "ml"],
    "CRM (Non-SAP)" := ["salesforce", "zendesk"]
  ]

  const Cloud := "S/4HANA Cloud"
  const OnPrem := "On-Prem"
  const Hybrid := "Hybrid"

  /** The hosting labels, the first being the default. */
  const HostingChoices: seq<string> := [Cloud, OnPrem, Hybrid]

  /** Named-user candidates, scanned in this ascending order. */
  const ScaleCandidates: seq<nat> := [100, 500, 1000, 5000, 10000, 20000]

  /** Named-user hint when no candidate occurs in the text. */
  const DefaultScale: nat := 1000

  /** Trigger phrases of a module; none for a code outside the keyword table. */
  function KeywordsOf(m: string): seq<string> {
    if m in ModuleKeywords then ModuleKeywords[m] else []
  }

  /** Trigger phrases of a non-SAP system; none for a label outside the table. */
  function SystemKeywordsOf(x: string): seq<string> {
    if x in NonSapKeywords then NonSapKeywords[x] else []
  }
}
