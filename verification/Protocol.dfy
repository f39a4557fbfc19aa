/** Constants of the wire protocol. */
module Protocol {
  const HEADER_SIZE := 12
  const MAX_FRAME_SIZE := 32 * 1024 * 1024

  const CONN_TYPE_SERVER := 1
  const CONN_TYPE_WORKER := 2
  const CONN_TYPE_CLIENT := 3
  const CONN_TYPE_SERVICE := 4

  const PDT_ERROR := 2
  const PDT_CANT_DO := 4
  const PDT_S_GET_DATA := 10
  const PDT_S_RETURN_DATA := 11
  const PDT_W_RETURN_DATA := 15
  const PDT_C_DO_JOB := 16
  const PDT_RATELIMIT := 18
}
