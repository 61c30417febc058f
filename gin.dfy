/**
 * The slice of a gin.Context the middlewares of this library touch: the
 * incoming request's headers and remote address, the per-request key/value
 * store, the values of the request's context.Context, the response headers,
 * and whether the handler chain was aborted with a JSON error or continued.
 * Routing and the handler chain itself are not modelled: Next only records
 * that the chain was continued.
 */
module Gin {
  import opened Wrappers
  import opened Http

  class Context<V> {
    const requestHeader: Header
    const remoteAddr: string
    /** c.Set / c.Get. */
    var keys: map<string, V>
    /** The values of c.Request.Context(), by key. */
    var requestValues: map<string, V>
    var responseHeader: Header
    var status: int
    /** The "error" field of the JSON body written on abort. */
    var errorMessage: Option<string>
    var aborted: bool
    var continued: bool

    constructor(requestHeader: Header, remoteAddr: string, requestValues: map<string, V>)
      ensures this.requestHeader == requestHeader && this.remoteAddr == remoteAddr
      ensures this.requestValues == requestValues
      ensures keys == map[] && responseHeader == map[]
      ensures status == 200 && errorMessage.None? && !aborted && !continued
    {
      this.requestHeader := requestHeader;
      this.remoteAddr := remoteAddr;
      this.requestValues := requestValues;
      keys := map[];
      responseHeader := map[];
      status := 200;
      errorMessage := None;
      aborted := false;
      continued := false;
    }

    /** c.GetHeader: the request header under its canonical name. */
    function GetHeader(name: string): (v: string)
      ensures v == Get(requestHeader, name)
    {
      Get(requestHeader, name)
    }

    method Set(key: string, value: V)
      modifies this
      ensures keys == old(keys)[key := value]
      ensures requestValues == old(requestValues) && responseHeader == old(responseHeader)
      ensures status == old(status) && errorMessage == old(errorMessage)
      ensures aborted == old(aborted) && continued == old(continued)
    {
      keys := keys[key := value];
    }

    /** c.Writer.Header().Set. */
    method SetResponseHeader(name: string, value: string)
      modifies this
      ensures responseHeader == Http.Set(old(responseHeader), name, value)
      ensures keys == old(keys) && requestValues == old(requestValues)
      ensures status == old(status) && errorMessage == old(errorMessage)
      ensures aborted == old(aborted) && continued == old(continued)
    {
      responseHeader := Http.Set(responseHeader, name, value);
    }

    /** c.Request = c.Request.WithContext(context.WithValue(ctx, key, value)). */
    method WithRequestValue(key: string, value: V)
      modifies this
      ensures requestValues == old(requestValues)[key := value]
      ensures keys == old(keys) && responseHeader == old(responseHeader)
      ensures status == old(status) && errorMessage == old(errorMessage)
      ensures aborted == old(aborted) && continued == old(continued)
    {
      requestValues := requestValues[key := value];
    }

    /** c.JSON(status, gin.H{"error": message}) followed by c.Abort(), or c.AbortWithStatusJSON. */
    method AbortWithJSON(code: int, message: string)
      modifies this
      ensures status == code && errorMessage == Some(message) && aborted
      ensures keys == old(keys) && requestValues == old(requestValues) && responseHeader == old(responseHeader)
      ensures continued == old(continued)
    {
      status := code;
      errorMessage := Some(message);
      aborted := true;
    }

    /** c.Next. */
    method Next()
      modifies this
      ensures continued
      ensures keys == old(keys) && requestValues == old(requestValues) && responseHeader == old(responseHeader)
      ensures status == old(status) && errorMessage == old(errorMessage) && aborted == old(aborted)
    {
      continued := true;
    }
  }
}
