/** The shipped feature registry and its commercial presets. */
module FeatureRegistry {
  import opened Features

  datatype Key =
    | Bales | Geo | Depot | Costs | Documents | Aux | Portals | Messaging | Analytics | Roles | Meteo
    | BalesProduction | BalesLoadRegister | BalesParcelDailyStatus | BalesAdjustments | BalesReconciliation
    | GeoParcels | GeoFarms | GeoKmlImport | GeoDrawMobile | GeoTracks | GeoAutoTransitions
    | DepotDestinations | DepotMannedConfirm | DepotWeighing | DepotInventory
    | CostsFuel | CostsConsumables | CostsReceiptPhotos | CostsReport
    | DocumentsLibrary | DocumentsCmrGenerate | DocumentsCmrScan | DocumentsPublicSign | DocumentsAviz
    | DocumentsComanda
    | AuxRequests | AuxFieldPickup
    | PortalsBeneficiaries | PortalsPublicRequest | PortalsBeneficiaryPin | PortalsTransporterRole
    | MessagingEmail | MessagingSms | MessagingMonitor | MessagingBroadcast
    | AnalyticsReports | AnalyticsReportOperators | AnalyticsExport | AnalyticsAlerts | AnalyticsFraud
    | RolesDriver | RolesLoaderOperator | RolesBalerOperator | RolesGeofenceMaker | RolesDepotManager
    | RolesDispatcher | RolesTransportator
    | MeteoWindow | MeteoMoisture | MeteoFingerprint | MeteoForecast | MeteoClimate | MeteoAlerts

  const MODULES := [Bales, Geo, Depot, Costs, Documents, Aux, Portals, Messaging, Analytics, Roles, Meteo]

  function Leaves(m: Key): seq<Key> {
    match m
    case Bales => [BalesProduction, BalesLoadRegister, BalesParcelDailyStatus, BalesAdjustments, BalesReconciliation]
    case Geo => [GeoParcels, GeoFarms, GeoKmlImport, GeoDrawMobile, GeoTracks, GeoAutoTransitions]
    case Depot => [DepotDestinations, DepotMannedConfirm, DepotWeighing, DepotInventory]
    case Costs => [CostsFuel, CostsConsumables, CostsReceiptPhotos, CostsReport]
    case Documents => [DocumentsLibrary, DocumentsCmrGenerate, DocumentsCmrScan, DocumentsPublicSign, DocumentsAviz,
                       DocumentsComanda]
    case Aux => [AuxRequests, AuxFieldPickup]
    case Portals => [PortalsBeneficiaries, PortalsPublicRequest, PortalsBeneficiaryPin, PortalsTransporterRole]
    case Messaging => [MessagingEmail, MessagingSms, MessagingMonitor, MessagingBroadcast]
    case Analytics => [AnalyticsReports, AnalyticsReportOperators, AnalyticsExport, AnalyticsAlerts, AnalyticsFraud]
    case Roles => [RolesDriver, RolesLoaderOperator, RolesBalerOperator, RolesGeofenceMaker, RolesDepotManager,
                   RolesDispatcher, RolesTransportator]
    case Meteo => [MeteoWindow, MeteoMoisture, MeteoFingerprint, MeteoForecast, MeteoClimate, MeteoAlerts]
    case _ => []
  }

  const KEYS := MODULES + Leaves(Bales) + Leaves(Geo) + Leaves(Depot) + Leaves(Costs) + Leaves(Documents) + Leaves(Aux)
                + Leaves(Portals) + Leaves(Messaging) + Leaves(Analytics) + Leaves(Roles) + Leaves(Meteo)

  /** What a key names in dependsOn. */
  function DependsOn(k: Key): seq<Key> {
    match k
    case BalesProduction | BalesLoadRegister | BalesParcelDailyStatus | BalesAdjustments | BalesReconciliation => [Bales]
    case GeoParcels | GeoFarms | GeoTracks => [Geo]
    case GeoKmlImport | GeoDrawMobile | GeoAutoTransitions => [GeoParcels]
    case DepotDestinations | DepotWeighing | DepotInventory => [Depot]
    case DepotMannedConfirm => [DepotDestinations]
    case CostsFuel | CostsConsumables | CostsReceiptPhotos | CostsReport => [Costs]
    case DocumentsLibrary | DocumentsCmrGenerate | DocumentsCmrScan | DocumentsPublicSign | DocumentsAviz
      | DocumentsComanda => [Documents]
    case AuxRequests => [Aux]
    case AuxFieldPickup => [AuxRequests]
    case PortalsBeneficiaries | PortalsPublicRequest | PortalsTransporterRole => [Portals]
    case PortalsBeneficiaryPin => [PortalsBeneficiaries]
    case MessagingEmail | MessagingSms | MessagingMonitor | MessagingBroadcast => [Messaging]
    case AnalyticsReports | AnalyticsExport | AnalyticsAlerts => [Analytics]
    case AnalyticsReportOperators => [AnalyticsReports]
    case AnalyticsFraud => [AnalyticsAlerts]
    case RolesDriver | RolesLoaderOperator | RolesBalerOperator | RolesGeofenceMaker | RolesDepotManager
      | RolesDispatcher => [Roles]
    case RolesTransportator => [Roles, PortalsTransporterRole]
    case MeteoWindow | MeteoForecast | MeteoClimate => [Meteo]
    case MeteoMoisture | MeteoFingerprint => [Meteo, MeteoWindow]
    case MeteoAlerts => [Meteo, MeteoForecast]
    case _ => []
  }

  function ModuleOf(k: Key): Key {
    match k
    case BalesProduction | BalesLoadRegister | BalesParcelDailyStatus | BalesAdjustments | BalesReconciliation => Bales
    case GeoParcels | GeoFarms | GeoKmlImport | GeoDrawMobile | GeoTracks | GeoAutoTransitions => Geo
    case DepotDestinations | DepotMannedConfirm | DepotWeighing | DepotInventory => Depot
    case CostsFuel | CostsConsumables | CostsReceiptPhotos | CostsReport => Costs
    case DocumentsLibrary | DocumentsCmrGenerate | DocumentsCmrScan | DocumentsPublicSign | DocumentsAviz
      | DocumentsComanda => Documents
    case AuxRequests | AuxFieldPickup => Aux
    case PortalsBeneficiaries | PortalsPublicRequest | PortalsBeneficiaryPin | PortalsTransporterRole => Portals
    case MessagingEmail | MessagingSms | MessagingMonitor | MessagingBroadcast => Messaging
    case AnalyticsReports | AnalyticsReportOperators | AnalyticsExport | AnalyticsAlerts | AnalyticsFraud => Analytics
    case RolesDriver | RolesLoaderOperator | RolesBalerOperator | RolesGeofenceMaker | RolesDepotManager
      | RolesDispatcher | RolesTransportator => Roles
    case MeteoWindow | MeteoMoisture | MeteoFingerprint | MeteoForecast | MeteoClimate | MeteoAlerts => Meteo
    case _ => k
  }

  /** Everything is wired; only the roles row is no switch. */
  function Shipped(): Registry<Key> {
    Registry(KEYS, MODULES, k => Def(ModuleOf(k), DependsOn(k), k != Roles, true))
  }

  // ---------------------------------------------------------------- the registry is well formed

  lemma InModule(m: Key, k: Key)
    requires m in MODULES && k in Leaves(m)
    ensures k in KEYS
  {
    hide Leaves;
    assert m == Bales || m == Geo || m == Depot || m == Costs || m == Documents || m == Aux || m == Portals
        || m == Messaging || m == Analytics || m == Roles || m == Meteo;
  }

  lemma RowListed(k: Key)
    requires k in MODULES
    ensures k in KEYS
  {
    hide Leaves;
  }

  predicate FirstModules(m: Key) { m.Bales? || m.Geo? || m.Depot? || m.Costs? || m.Documents? }

  lemma LeafOfFirstModules(k: Key)
    requires FirstModules(ModuleOf(k))
    ensures k == ModuleOf(k) || k in Leaves(ModuleOf(k))
  {
  }

  lemma LeafOfOtherModules(k: Key)
    requires !FirstModules(ModuleOf(k))
    ensures k == ModuleOf(k) || k in Leaves(ModuleOf(k))
  {
  }

  lemma LeafOfModule(k: Key)
    ensures k in MODULES || k in Leaves(ModuleOf(k))
  {
    hide Leaves, ModuleOf;
    LeafModule(k);
    if FirstModules(ModuleOf(k)) {
      LeafOfFirstModules(k);
    } else {
      LeafOfOtherModules(k);
    }
  }

  lemma LeafModule(k: Key)
    ensures ModuleOf(k) in MODULES
  {
  }

  /** Every key is listed. */
  lemma AllListed(k: Key)
    ensures k in KEYS
  {
    hide Leaves, ModuleOf;
    LeafOfModule(k);
    LeafModule(k);
    if k in MODULES {
      RowListed(k);
    } else {
      InModule(ModuleOf(k), k);
    }
  }

  /** The module row is the key itself, a dependency, or a dependency of the first one. */
  lemma ModuleIsNear(k: Key)
    ensures DependsOn(k) == [] ==> ModuleOf(k) == k
    ensures DependsOn(k) != [] ==> ModuleOf(k) in DependsOn(k) || ModuleOf(k) in DependsOn(DependsOn(k)[0])
  {
  }

  lemma ModuleReached(k: Key)
    ensures Reaches(Shipped(), k, ModuleOf(k))
  {
    hide DependsOn, ModuleOf, Reaches, Leaves, KEYS;
    var reg, m := Shipped(), ModuleOf(k);
    assert reg.keys == KEYS && reg.def(k).dependsOn == DependsOn(k);
    AllListed(k);
    AllListed(m);
    ModuleIsNear(k);
    ReachesSelf(reg, m);
    if DependsOn(k) != [] {
      var d := DependsOn(k)[0];
      assert reg.def(d).dependsOn == DependsOn(d);
      AllListed(d);
      if m in DependsOn(k) {
        ReachesVia(reg, k, m, m);
      } else {
        ReachesVia(reg, d, m, m);
        ReachesVia(reg, k, d, m);
      }
    }
  }

  /** The shipped registry meets what the theorems about presets ask for. */
  lemma ShippedAnchored()
    ensures Anchored(Shipped()) && Closed(Shipped())
  {
    hide DependsOn, ModuleOf, Reaches, Leaves, KEYS;
    forall k: Key
      ensures k in Shipped().keys && Reaches(Shipped(), k, Shipped().def(k).module_)
    {
      AllListed(k);
      ModuleReached(k);
    }
  }

  // ---------------------------------------------------------------- presets

  datatype Preset = NewOrg | Basic | Pro | Enterprise

  function SwitchedOffBy(p: Preset): seq<Key> {
    match p
    case NewOrg => [Aux, Portals, Messaging, BalesAdjustments, GeoKmlImport, DepotMannedConfirm, DocumentsCmrScan,
                    DocumentsPublicSign, DocumentsAviz, DocumentsComanda, AnalyticsReportOperators, RolesDepotManager,
                    RolesTransportator]
    case Basic => [Documents, Aux, Portals, Messaging, Analytics, GeoDrawMobile, DepotInventory, RolesDispatcher,
                   RolesGeofenceMaker, RolesTransportator]
    case Pro => [MessagingSms, AnalyticsFraud, PortalsTransporterRole]
    case Enterprise => []
  }

  function Entries(p: Preset): (r: seq<Entry<Key>>)
    ensures |r| == |SwitchedOffBy(p)| && AllFalse(r)
    ensures forall i :: 0 <= i < |r| ==> r[i].key == SwitchedOffBy(p)[i]
  {
    seq(|SwitchedOffBy(p)|, i requires 0 <= i < |SwitchedOffBy(p)| => Entry(SwitchedOffBy(p)[i], false))
  }

  lemma PresetsSpareRoles(p: Preset)
    ensures Roles !in SwitchedOffBy(p) && ModuleOf(Roles) == Roles
  {
  }

  /** For the shipped registry, translating a preset changes nothing: the two resolve identically. */
  lemma ShippedTranslation(p: Preset, raw: Overrides<Key>, o: Overrides<Key>)
    requires Raw(Entries(p), raw) && Amounts(Shipped(), Entries(p), o)
    ensures o == raw
    ensures Listed(Shipped(), o, KEYS) == Listed(Shipped(), raw, KEYS)
  {
    hide ModuleOf, DependsOn, Raw, Amounts, KEYS, SwitchedOffBy;
    PresetsSpareRoles(p);
    forall i | 0 <= i < |Entries(p)|
      ensures Entries(p)[i].key in Shipped().keys && Switchable(Shipped(), Entries(p)[i].key)
    {
      AllListed(Entries(p)[i].key);
    }
    TranslationIsIdentity(Shipped(), Entries(p), raw, o);
  }

  /** A module that a preset switches off takes every one of its features along. */
  lemma ModuleOffMeansAllOff(p: Preset, o: Overrides<Key>, k: Key)
    requires Amounts(Shipped(), Entries(p), o) && ModuleOf(k) in SwitchedOffBy(p)
    ensures Doomed(Shipped(), o, k)
  {
    hide ModuleOf, DependsOn, Amounts, KEYS, MODULES, SwitchedOffBy, Doomed, Anchored, Closed, Leaves, AllFalse;
    PresetsSpareRoles(p);
    ShippedAnchored();
    var i :| 0 <= i < |SwitchedOffBy(p)| && SwitchedOffBy(p)[i] == ModuleOf(k);
    AllListed(k);
    AllListed(ModuleOf(k));
    LeafModule(k);
    assert NamedBy(Shipped(), Entries(p)[i].key, k);
    DisablesWhatIsNamed(Shipped(), Entries(p), o, k);
  }
}
