/** Service enablement: one `ServiceConfig` object per service, held by a `DatabricksConfig`
    and switched on and off in place. */
module Config {
  import opened Wrappers
  import opened Json

  /** The services a configuration knows about. */
  const ServiceNames: set<string> := {"sql", "uc", "ws", "jobs"}

  /** One service's switch and its extra keyword options. */
  class ServiceConfig {
    var enabled: bool
    var options: map<string, Json>

    /** `ServiceConfig(enabled=True, **kwargs)`: enabled by default, options kept verbatim. */
    constructor (enabled: bool := true, options: map<string, Json> := map[])
      ensures this.enabled == enabled && this.options == options
    {
      this.enabled := enabled;
      this.options := options;
    }
  }

  /** The effect of a switch on the enabled map: a known service gets the new value, an
      unknown name changes nothing. */
  function SetEnabled(m: map<string, bool>, name: string, value: bool): (r: map<string, bool>)
    ensures r.Keys == m.Keys + (if name in ServiceNames then {name} else {})
    ensures name in ServiceNames ==> r[name] == value
    ensures forall n :: n in m && n != name ==> r[n] == m[n]
    ensures name !in ServiceNames ==> r == m
  {
    if name in ServiceNames then m[name := value] else m
  }

  /** Enabling a service after disabling it restores it, and leaves the others as they were. */
  lemma EnableAfterDisable(m: map<string, bool>, name: string)
    requires m.Keys == ServiceNames
    ensures var r := SetEnabled(SetEnabled(m, name, false), name, true);
            r.Keys == ServiceNames
            && (name in ServiceNames ==> r[name])
            && forall n :: n in ServiceNames && n != name ==> r[n] == m[n]
  {
  }

  /** The attribute `getattr(config, name)` finds: a service record, a bound method, or
      nothing. */
  datatype Attribute = ServiceAttr(config: ServiceConfig) | MethodAttr(name: string) | NoAttr

  /** The message of the `AttributeError` raised when `.enabled` is read or set on a bound
      method. */
  const MethodHasNoEnabled := "'method' object has no attribute 'enabled'"

  /** `f"{name}_service"` is the attribute of a service exactly when it names one. */
  lemma ServiceAttributeName(name: string, service: string)
    requires service in ServiceNames
    ensures name + "_service" == service + "_service" <==> name == service
  {
    if name + "_service" == service + "_service" {
      assert |name| == |service|;
      assert name == (name + "_service")[..|name|];
      assert service == (service + "_service")[..|service|];
    }
  }

  class DatabricksConfig {
    const sqlService: ServiceConfig
    const ucService: ServiceConfig
    const wsService: ServiceConfig
    const jobsService: ServiceConfig

    /** The four service records. */
    function Repr(): set<ServiceConfig> {
      {sqlService, ucService, wsService, jobsService}
    }

    /** The records are four distinct objects, so switching one leaves the others alone. */
    ghost predicate Valid() {
      && sqlService != ucService && sqlService != wsService && sqlService != jobsService
      && ucService != wsService && ucService != jobsService && wsService != jobsService
    }

    /** The enabled state of every service. */
    function Enabled(): map<string, bool>
      reads Repr()
    {
      map["sql" := sqlService.enabled, "uc" := ucService.enabled,
          "ws" := wsService.enabled, "jobs" := jobsService.enabled]
    }

    /** A fresh configuration has all four services enabled, with no options. */
    constructor ()
      ensures Valid() && fresh(Repr())
      ensures Enabled() == map["sql" := true, "uc" := true, "ws" := true, "jobs" := true]
      ensures forall s :: s in Repr() ==> s.options == map[]
    {
      sqlService := new ServiceConfig(true);
      ucService := new ServiceConfig(true);
      wsService := new ServiceConfig(true);
      jobsService := new ServiceConfig(true);
    }

    /** `get_service_config`: the service's own record for the four names, nothing otherwise. */
    function GetServiceConfig(name: string): (r: Option<ServiceConfig>)
      ensures r.Some? <==> name in ServiceNames
      ensures r.Some? ==> r.value in Repr()
      ensures name == "sql" ==> r == Some(sqlService)
      ensures name == "uc" ==> r == Some(ucService)
      ensures name == "ws" ==> r == Some(wsService)
      ensures name == "jobs" ==> r == Some(jobsService)
    {
      if name == "sql" then Some(sqlService)
      else if name == "uc" then Some(ucService)
      else if name == "ws" then Some(wsService)
      else if name == "jobs" then Some(jobsService)
      else None
    }

    /** `is_service_enabled`: false for every name but the four, else that service's switch. */
    function IsServiceEnabled(name: string): (r: bool)
      reads Repr()
      ensures r <==> name in ServiceNames && Enabled()[name]
    {
      var c := GetServiceConfig(name);
      if c.Some? then c.value.enabled else false
    }

    /** The names `is_service_enabled` answers true for. */
    function EnabledServices(): (r: set<string>)
      reads Repr()
      ensures r <= ServiceNames
      ensures forall n :: n in r <==> IsServiceEnabled(n)
    {
      set n | n in ServiceNames && IsServiceEnabled(n)
    }

    /** `disable_service`: switches a known service off; an unknown name changes nothing. */
    method DisableService(name: string)
      requires Valid()
      modifies Repr()
      ensures Enabled() == SetEnabled(old(Enabled()), name, false)
      ensures forall s :: s in Repr() ==> s.options == old(s.options)
    {
      var c := GetServiceConfig(name);
      if c.Some? {
        c.value.enabled := false;
      }
    }

    /** `enable_service`: switches a known service on; an unknown name changes nothing. */
    method EnableService(name: string)
      requires Valid()
      modifies Repr()
      ensures Enabled() == SetEnabled(old(Enabled()), name, true)
      ensures forall s :: s in Repr() ==> s.options == old(s.options)
    {
      var c := GetServiceConfig(name);
      if c.Some? {
        c.value.enabled := true;
      }
    }

    /** `getattr(self, attribute, None)` over the instance's attributes and the class's
        methods whose names end in `_service`. */
    function GetAttr(attribute: string): Attribute {
      if attribute == "sql_service" then ServiceAttr(sqlService)
      else if attribute == "uc_service" then ServiceAttr(ucService)
      else if attribute == "ws_service" then ServiceAttr(wsService)
      else if attribute == "jobs_service" then ServiceAttr(jobsService)
      else if attribute == "disable_service" || attribute == "enable_service" then MethodAttr(attribute)
      else NoAttr
    }

    /** `get_service_config` as written: the lookup also finds the two methods. */
    function GetServiceConfigAsWritten(name: string): (r: Attribute)
      ensures name == "disable" ==> r == MethodAttr("disable_service")
      ensures name == "enable" ==> r == MethodAttr("enable_service")
      ensures name in ServiceNames ==> r == ServiceAttr(GetServiceConfig(name).value)
      ensures name !in ServiceNames && name !in {"disable", "enable"} ==> r == NoAttr
    {
      ServiceAttributeName(name, "sql");
      ServiceAttributeName(name, "uc");
      ServiceAttributeName(name, "ws");
      ServiceAttributeName(name, "jobs");
      DisableEnableAttributeName(name);
      GetAttr(name + "_service")
    }

    /** `is_service_enabled` as written: reading `.enabled` off a bound method raises. */
    function IsServiceEnabledAsWritten(name: string): (r: Result<bool>)
      reads Repr()
      ensures name == "disable" || name == "enable" ==> r == Err(Error(AttributeError, MethodHasNoEnabled))
      ensures name !in {"disable", "enable"} ==> r == Ok(IsServiceEnabled(name))
    {
      ServiceAttributeName(name, "sql");
      ServiceAttributeName(name, "uc");
      ServiceAttributeName(name, "ws");
      ServiceAttributeName(name, "jobs");
      DisableEnableAttributeName(name);
      match GetAttr(name + "_service")
      case ServiceAttr(c) => Ok(c.enabled)
      case MethodAttr(_) => Err(Error(AttributeError, MethodHasNoEnabled))
      case NoAttr => Ok(false)
    }

    /** `disable_service` as written: setting `.enabled` on a bound method raises, and
        nothing changes. */
    method DisableServiceAsWritten(name: string) returns (raised: Option<Error>)
      requires Valid()
      modifies Repr()
      ensures name in {"disable", "enable"} ==>
                raised == Some(Error(AttributeError, MethodHasNoEnabled)) && Enabled() == old(Enabled())
      ensures name !in {"disable", "enable"} ==>
                raised == None && Enabled() == SetEnabled(old(Enabled()), name, false)
    {
      var attribute := GetServiceConfigAsWritten(name);
      match attribute
      case ServiceAttr(c) =>
        c.enabled := false;
        raised := None;
      case MethodAttr(_) =>
        raised := Some(Error(AttributeError, MethodHasNoEnabled));
      case NoAttr =>
        raised := None;
    }

    /** `enable_service` as written: the same lookup, so "disable" and "enable" raise too. */
    method EnableServiceAsWritten(name: string) returns (raised: Option<Error>)
      requires Valid()
      modifies Repr()
      ensures name in {"disable", "enable"} ==>
                raised == Some(Error(AttributeError, MethodHasNoEnabled)) && Enabled() == old(Enabled())
      ensures name !in {"disable", "enable"} ==>
                raised == None && Enabled() == SetEnabled(old(Enabled()), name, true)
    {
      var attribute := GetServiceConfigAsWritten(name);
      match attribute
      case ServiceAttr(c) =>
        c.enabled := true;
        raised := None;
      case MethodAttr(_) =>
        raised := Some(Error(AttributeError, MethodHasNoEnabled));
      case NoAttr =>
        raised := None;
    }

    /** The discrepancy:`is_service_enabled("disable")` raises where an unknown name should
        read as disabled. */
    lemma DisableNameRaises()
      ensures IsServiceEnabledAsWritten("disable") == Err(Error(AttributeError, MethodHasNoEnabled))
      ensures !IsServiceEnabled("disable")
    {
    }
  }

  /** `f"{name}_service"` names one of the two methods exactly for "disable" and "enable". */
  lemma DisableEnableAttributeName(name: string)
    ensures name + "_service" == "disable_service" <==> name == "disable"
    ensures name + "_service" == "enable_service" <==> name == "enable"
  {
    if name + "_service" == "disable_service" {
      assert name == (name + "_service")[..|name|];
    }
    if name + "_service" == "enable_service" {
      assert name == (name + "_service")[..|name|];
    }
  }
}
