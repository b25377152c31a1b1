/** The bounds of the web server (apps/webserv/src/Server.cpp and Config.cpp). */
module Limits {
  import opened Strings

  const MAX_CONNECTIONS: nat := 128
  const MAX_CGI_PROCESSES: nat := 16
  const MAX_HEADER_OVERHEAD: nat := 65536
  const MAX_CGI_OUTPUT: nat := 16 * 1024 * 1024

  /** The most bytes one recv or read brings. */
  const READ_SIZE: nat := 16384

  /** The largest client_max_body_size a configuration may set. */
  const MAX_BODY: nat := 16 * 1024 * 1024

  /** The most bytes of a request the server holds. */
  function RequestLimit(maxBody: nat): (limit: nat)
    ensures MAX_HEADER_OVERHEAD <= limit <= maxBody + MAX_HEADER_OVERHEAD
    ensures maxBody <= MAX_BODY ==> limit == maxBody + MAX_HEADER_OVERHEAD
  {
    if maxBody > SIZE_MAX - MAX_HEADER_OVERHEAD then SIZE_MAX else maxBody + MAX_HEADER_OVERHEAD
  }
}
