/**
 * The adapter configuration read from the `config-autoscaler-keda` config
 * map (pkg/reconciler/autoscaling/hpa/config/autoscaler_keda.go).
 */
module KedaConfig {

  import opened Wrappers
  import opened NetUrl

  const AutoscalerKedaConfigName := "config-autoscaler-keda"
  const DefaultPrometheusAddress := "http://prometheus-operated.default.svc:9090"
  const PrometheusAddressKey := "autoscaler.keda.prometheus-address"

  /**
   * The adapter settings. The reconciler reads ShouldCreateScaledObject from
   * this record; the loader never assigns it, so a loaded record carries
   * Go's zero value, false.
   */
  datatype AutoscalerKedaConfig = AutoscalerKedaConfig(
    prometheusAddress: string,
    shouldCreateScaledObject: bool)

  datatype ConfigMap = ConfigMap(name: string, namespace: string, data: map<string, string>)

  /**
   * NewConfigFromMap. Ok(Some(c)) is a loaded config and Err a rejected
   * address. Ok(None) is the nil config with a nil error that the loader
   * returns when the address parses but has an empty host: the error it
   * returns there is the (nil) error of the parse. A nil map is the empty map.
   */
  function NewConfigFromMap(data: map<string, string>, urls: UrlParser)
    : (r: Result<Option<AutoscalerKedaConfig>, UrlError>)
    ensures var address := if PrometheusAddressKey in data then data[PrometheusAddressKey]
                           else DefaultPrometheusAddress;
            && (r.Err? <==> urls.parseRequestURI(address).None? || urls.parse(address).None?)
            && (r.Err? && urls.parseRequestURI(address).None? ==> r.error == RequestURIError(address))
            && (r.Err? && urls.parseRequestURI(address).Some? ==> r.error == ParseError(address))
            && (r == Ok(None) <==> urls.parseRequestURI(address).Some? && urls.parse(address).Some? &&
                                   urls.parse(address).value.host == "")
            && (r.Ok? && r.value.Some? ==> r.value.value == AutoscalerKedaConfig(address, false))
  {
    var config := AutoscalerKedaConfig(DefaultPrometheusAddress, false);
    // The one string setter of the parse step: it never fails.
    var config := if PrometheusAddressKey in data then config.(prometheusAddress := data[PrometheusAddressKey])
                  else config;
    if urls.parseRequestURI(config.prometheusAddress).None? then
      Err(RequestURIError(config.prometheusAddress))
    else
      var u := urls.parse(config.prometheusAddress);
      if u.None? then Err(ParseError(config.prometheusAddress))
      else if u.value.host == "" then Ok(None)
      else Ok(Some(config))
  }

  /** NewAutoscalerKedaConfigFromConfigMap: the map-based loader applied to the data. */
  function NewAutoscalerKedaConfigFromConfigMap(cm: ConfigMap, urls: UrlParser)
    : (r: Result<Option<AutoscalerKedaConfig>, UrlError>)
    ensures r == NewConfigFromMap(cm.data, urls)
  {
    NewConfigFromMap(cm.data, urls)
  }

  /** With no key (a nil or empty map), the default address is loaded when it parses with a host. */
  lemma DefaultAddressLoaded(data: map<string, string>, urls: UrlParser)
    requires PrometheusAddressKey !in data
    requires urls.parseRequestURI(DefaultPrometheusAddress).Some?
    requires urls.parse(DefaultPrometheusAddress).Some? && urls.parse(DefaultPrometheusAddress).value.host != ""
    ensures NewConfigFromMap(data, urls) == Ok(Some(AutoscalerKedaConfig(DefaultPrometheusAddress, false)))
  {
  }

  /** The configured key replaces the default address. */
  lemma ConfiguredAddressWins(data: map<string, string>, urls: UrlParser)
    requires PrometheusAddressKey in data
    requires NewConfigFromMap(data, urls).Ok? && NewConfigFromMap(data, urls).value.Some?
    ensures NewConfigFromMap(data, urls).value.value.prometheusAddress == data[PrometheusAddressKey]
  {
  }
}
