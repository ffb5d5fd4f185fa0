/**
 * What a request leaves behind besides store changes: the socket events it
 * emits and the background jobs it queues, both append-only logs in the
 * order the code issues them, and the reply it sends.
 */
module Effects {
  import opened Wrappers
  import opened Records
  import opened CacheStore
  import opened Documents
  import PostCache

  /** Who receives an event. */
  datatype Scope =
    | Everyone                  // `emit(event, data)`
    | ToUser(userTo: string)    // `emit(event, data, { userTo })`
    | Tagged(tag: string)       // `emit(event, data, 'posts')`: every client, the tag an extra argument

  /**
   * The notified user as the user cache returns it: the two notification
   * preferences, the name and the e-mail address.
   */
  datatype Recipient = Recipient(notifyComments: bool, notifyReactions: bool, username: Val, email: Val)

  /** The notification rule: the recipient's preference is on and the sender is someone else. */
  predicate ShouldNotify(preference: bool, userFrom: string, userTo: string) {
    preference && userFrom != userTo
  }

  /** The notification text `${username} <action> your post.`, shared by comments and reactions. */
  function NotificationMessage(username: string, action: string): string {
    username + " " + action + " your post."
  }

  /** IFollowerData: the followed user as the `add follower` event shows it. */
  datatype FollowerData = FollowerData(
    id: string,
    username: Val,
    avatarColor: Val,
    postCount: Option<Json>,
    followersCount: Option<Json>,
    followingCount: Option<Json>,
    profilePicture: Val,
    uId: Val,
    userProfile: Hash)

  datatype EmitData =
    | CreatedPost(post: Post)
    | UpdatedPost(reply: PostCache.PostReply)
    | DeletedPost(postId: string)
    | NewNotification(notification: Notification)
    | NewFollower(follower: FollowerData)

  datatype Emit = Emit(event: string, data: EmitData, scope: Scope)

  /** The parameters of the notification e-mail template. */
  datatype TemplateParams = TemplateParams(username: Val, message: string, header: string)

  datatype JobData =
    | NewPostJob(key: string, value: Post)                                 // addPostToDB
    | UpdatePostJob(key: string, updated: PostCache.PostReply)             // updatePostInDB
    | KeyPairJob(keyOne: string, keyTwo: string)                           // deletePostFromDB, removeFollowerFromDB
    | ImageJob(imageKey: string, imgId: string, imgVersion: string)        // addImageToDB
    | CommentJob(postId: string, userTo: string, userFrom: string, username: string, comment: Comment)
    | ReactionJob(postId: string, userTo: string, userFrom: string, username: string,
                  reactionType: Val, previousReaction: Val, reactionObject: Reaction)
    | RemoveReactionJob(postId: string, username: string, previousReaction: Val)
    | FollowerJob(followerKeyOne: string, followerKeyTwo: string, username: string, followerDocumentId: string)
    | EmailJob(receiverEmail: Val, template: TemplateParams, subject: string)

  /** The retry policy every job is queued with: fixed back-off between attempts. */
  datatype JobOptions = JobOptions(attempts: nat, backoffDelayMs: nat)

  const JOB_OPTIONS: JobOptions := JobOptions(3, 5000)

  datatype Job = Job(name: string, data: JobData, options: JobOptions)

  /** The signed-in user a route reads from the request. */
  datatype CurrentUser = CurrentUser(userId: string, uId: string, username: string, email: string, avatarColor: string)

  /** The HTTP reply of a route that succeeded: the status and the message of its JSON body. */
  datatype Response = Response(status: nat, message: string)

  const OK: nat := 200
  const CREATED: nat := 201

  class Outbox {
    var emits: seq<Emit>
    var jobs: seq<Job>

    constructor ()
      ensures emits == [] && jobs == []
    {
      emits := [];
      jobs := [];
    }

    /** A socket event. */
    method Send(e: Emit)
      modifies this
      ensures emits == old(emits) + [e] && jobs == old(jobs)
    {
      emits := emits + [e];
    }

    /** `addJob(name, data)`: queued with three attempts, 5000 ms apart. */
    method AddJob(name: string, data: JobData)
      modifies this
      ensures jobs == old(jobs) + [Job(name, data, JOB_OPTIONS)] && emits == old(emits)
      ensures jobs[|jobs| - 1].options.attempts == 3 && jobs[|jobs| - 1].options.backoffDelayMs == 5000
    {
      jobs := jobs + [Job(name, data, JOB_OPTIONS)];
    }
  }
}
