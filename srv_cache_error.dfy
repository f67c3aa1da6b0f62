/**
 * kerberos_app_srv/src/utils.rs: the error the application server's
 * cache-backed stores return, and how a cache error becomes one.
 */
module SrvCacheErrors {
  import TtlLru

  /** The settings every cache-backed store of the application server is made with. */
  const StoreCapacity: nat := 100
  const StoreTtl: nat := 3600

  datatype SrvCacheError = MissingKey | Expired | Internal

  /** `From<CacheErr>`: a missing key and an expired value keep their meaning; a full cache is internal. */
  function FromCacheErr(e: TtlLru.CacheErr): (r: SrvCacheError)
    ensures r == MissingKey <==> e == TtlLru.MissingKey
    ensures r == Expired <==> e == TtlLru.ValueExpired
    ensures r == Internal <==> e == TtlLru.CacheFull
  {
    match e
    case MissingKey => MissingKey
    case ValueExpired => Expired
    case CacheFull => Internal
  }
}
