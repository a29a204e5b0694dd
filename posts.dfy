/** `Post.java`: a post as the posts collection stores it. Posts are only
    carried here: the profile response lists a user's posts. */
module PostModel {
  import opened Wrappers

  datatype Post = Post(
    id: Option<string>,
    userId: Option<string>,
    category: Option<string>,
    title: Option<string>,
    description: Option<string>,
    imageUrl: Option<string>,
    createdAt: int)
}
