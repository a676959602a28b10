/** The value every read and write reports: the key, the value (null when
    there is none) and whether it came from the distributed cache. */
module CacheItems {
  import opened JsValues

  datatype CacheItem = CacheItem(key: string, value: Value, fromCache: bool)
}
