/** The content records the pages read: posts and projects as the content layer
    generates them. Dates are integer timestamps. */
module Content {
  import opened Wrappers

  /** A blog post; `body` stands for every field the pages do not pick. */
  datatype Post = Post(slug: string, title: string, publishedAt: int, image: Option<string>, body: string)

  /** A project; `body` stands for every field the pages do not pick. */
  datatype Project = Project(slug: string, title: string, description: string, time: string,
                             image: Option<string>, body: string)
}
