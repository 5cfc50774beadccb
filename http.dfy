/** What a gin handler writes: a status code and a JSON body, the body's rendering left out. */
module Http {
  const StatusOK: int := 200
  const StatusBadRequest: int := 400
  const StatusNotFound: int := 404
  const StatusInternalServerError: int := 500

  datatype Response<B> = Response(status: int, body: B)
}
