/** Records exchanged with the artisan backend, and the shape of a network outcome. */
module Domain {

  datatype Option<+T> = None | Some(value: T)

  /** What a `fetch` followed by `response.json()` delivers to a page: the parsed
      body, or a failure (a transport error, a non-OK status and a body that does
      not parse all land in the same `catch`). */
  datatype Outcome<+T> = Ok(data: T) | Fail

  /** The artisan record. Each page declares a subset of these fields; this is their
      union. `rating` is a JavaScript number, here an exact `real`. */
  datatype Artisan = Artisan(
    id: int,
    name: string,
    skill: string,
    location: string,
    phone: string,
    experience: string,
    description: Option<string>,
    rating: Option<real>,
    completedJobs: Option<int>,
    avatar: Option<string>)

  /** Base URL every page hard-codes in front of its REST path. */
  const ApiBase := "http://localhost:5000"
}
